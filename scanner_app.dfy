/** The state of the `QRScannerApp` component and the handlers that change it.
    Every handler runs to completion before the next one starts; the network,
    clock and timer are inputs (a `Reply` per request, `now` and `scannedAt`
    readings, an explicit `TimerFired` step). */
module ScannerApp {
  import opened Wrappers
  import opened Payload
  import opened Webhook
  import opened Replay

  const OfflineMessage: string := "Guardado offline - Se sincronizará cuando haya conexión"
  const FailurePrefix: string := "Error al procesar QR: "

  /** The three mutually exclusive panels of the scanner card. */
  datatype View = Idle | Scanning | Result

  /** What an offline decode shows: optimistic success, carrying the queued record. */
  function OfflineOutcome(record: ScanRecord, now: int): ScanOutcome
  {
    ScanOutcome(true, OfflineMessage, record.qrData, now, Queued(record))
  }

  /** What a failed online submission shows. */
  function FailureOutcome(qrData: string, error: string, now: int): ScanOutcome
  {
    ScanOutcome(false, FailurePrefix + error, qrData, now, NoData)
  }

  class QRScannerApp {
    var scanning: bool
    var lastScan: Option<ScanOutcome>
    var total: nat
    var successful: nat
    var failed: nat
    var isOnline: bool
    var pendingScans: seq<ScanRecord>
    /** The `pendingScans` entry of `localStorage`; an absent entry reads as `[]`. */
    var storage: seq<ScanRecord>
    /** The 3000 ms timers scheduled by `processQRCode` that have not fired yet. */
    var pendingTimers: nat

    /** The persisted queue is a full snapshot of the in-memory queue, and
        every counted decode or resend is either a success or a failure. */
    ghost predicate Valid()
      reads this
    {
      storage == pendingScans && total == successful + failed
    }

    /** The panel rendered for the current state. */
    function CurrentView(): (v: View)
      reads this
      ensures v == Idle <==> !scanning && lastScan.None?
      ensures v == Scanning <==> scanning && lastScan.None?
      ensures v == Result <==> lastScan.Some?
    {
      if lastScan.Some? then Result else if scanning then Scanning else Idle
    }

    /** Mounting the component: the saved queue is loaded, connectivity is
        adopted from the platform, and nothing is synced yet (the sync effect
        of the first render still sees the empty initial queue). */
    constructor Mount(saved: seq<ScanRecord>, online: bool)
      ensures Valid() && CurrentView() == Idle
      ensures pendingScans == saved && isOnline == online
      ensures total == 0 && successful == 0 && failed == 0 && pendingTimers == 0
    {
      scanning := false;
      lastScan := None;
      total, successful, failed := 0, 0, 0;
      isOnline := online;
      storage := saved;
      pendingScans := saved;
      pendingTimers := 0;
    }

    /** The "Iniciar escaneo" button, present only in the idle view. */
    method Start()
      requires Valid()
      modifies this`scanning
      ensures Valid()
      ensures old(CurrentView()) == Idle ==> CurrentView() == Scanning
      ensures old(CurrentView()) != Idle ==> scanning == old(scanning)
    {
      if CurrentView() == Idle {
        scanning := true;
      }
    }

    /** The "Detener" button, present only in the scanning view. */
    method Stop()
      requires Valid()
      modifies this`scanning
      ensures Valid()
      ensures old(CurrentView()) == Scanning ==> CurrentView() == Idle
      ensures old(CurrentView()) != Scanning ==> scanning == old(scanning)
    {
      if CurrentView() == Scanning {
        scanning := false;
      }
    }

    /** One pending 3000 ms timer fires: the outcome is cleared and capture resumes. */
    method TimerFired()
      requires Valid()
      modifies this`lastScan, this`scanning, this`pendingTimers
      ensures Valid()
      ensures old(pendingTimers) > 0 ==>
        lastScan == None && scanning && pendingTimers == old(pendingTimers) - 1 && CurrentView() == Scanning
      ensures old(pendingTimers) == 0 ==>
        lastScan == old(lastScan) && scanning == old(scanning) && pendingTimers == 0
    {
      if pendingTimers > 0 {
        pendingTimers := pendingTimers - 1;
        lastScan := None;
        scanning := true;
      }
    }

    /** `sendToWebhook(record)`: returns the thrown error's message, if any.
        An accepted record is shown and counted as a success; a refused one
        changes nothing. */
    method SendToWebhook(record: ScanRecord, reply: Reply, now: int) returns (error: Option<string>)
      requires Valid()
      modifies this`lastScan, this`total, this`successful
      ensures Valid()
      ensures Delivers(reply) ==>
        && error == None
        && lastScan == Some(DeliveredOutcome(record, reply, now))
        && total == old(total) + 1 && successful == old(successful) + 1
      ensures !Delivers(reply) ==>
        && error == Some(Submit(reply).error)
        && lastScan == old(lastScan) && total == old(total) && successful == old(successful)
    {
      var s := Submit(reply);
      if s.Accepted? {
        lastScan := Some(DeliveredOutcome(record, reply, now));
        total := total + 1;
        successful := successful + 1;
        error := None;
      } else {
        error := Some(s.error);
      }
    }

    /** The state after `processQRCode(raw)` for a non-empty `raw`: exactly
        one decode counted, as exactly one success or failure; the record
        queued at the end when offline; the outcome shown; capture paused
        with one more timer pending. */
    twostate predicate ProcessedDecode(raw: string, scannedAt: string, reply: Reply, now: int)
      reads this
    {
      var record := BuildRecord(raw, scannedAt);
      && !scanning && lastScan.Some?
      && pendingTimers == old(pendingTimers) + 1
      && isOnline == old(isOnline)
      && total == old(total) + 1
      && (!old(isOnline) ==>
            && pendingScans == old(pendingScans) + [record]
            && successful == old(successful) + 1 && failed == old(failed)
            && lastScan == Some(OfflineOutcome(record, now)))
      && (old(isOnline) && Delivers(reply) ==>
            && pendingScans == old(pendingScans)
            && successful == old(successful) + 1 && failed == old(failed)
            && lastScan == Some(DeliveredOutcome(record, reply, now)))
      && (old(isOnline) && !Delivers(reply) ==>
            && pendingScans == old(pendingScans)
            && successful == old(successful) && failed == old(failed) + 1
            && lastScan == Some(FailureOutcome(raw, Submit(reply).error, now)))
    }

    /** The online branch of `processQRCode`: the record is posted; a thrown
        error is shown with the failure prefix and counted as a failure. */
    method PostRecord(record: ScanRecord, reply: Reply, now: int)
      requires Valid()
      modifies this`lastScan, this`total, this`successful, this`failed
      ensures Valid() && total == old(total) + 1 && lastScan.Some?
      ensures Delivers(reply) ==>
        && successful == old(successful) + 1 && failed == old(failed)
        && lastScan == Some(DeliveredOutcome(record, reply, now))
      ensures !Delivers(reply) ==>
        && successful == old(successful) && failed == old(failed) + 1
        && lastScan == Some(FailureOutcome(record.qrData, Submit(reply).error, now))
    {
      var error := SendToWebhook(record, reply, now);
      if error.Some? {
        lastScan := Some(FailureOutcome(record.qrData, error.value, now));
        total := total + 1;
        failed := failed + 1;
      }
    }

    /** The offline branch of `processQRCode`: the record is appended to the
        queue, the whole queue is persisted, and the decode counts as a success. */
    method QueueRecord(record: ScanRecord, now: int)
      requires Valid()
      modifies this`pendingScans, this`storage, this`lastScan, this`total, this`successful
      ensures Valid() && pendingScans == old(pendingScans) + [record]
      ensures lastScan == Some(OfflineOutcome(record, now))
      ensures total == old(total) + 1 && successful == old(successful) + 1
    {
      var pending := pendingScans + [record];
      pendingScans := pending;
      storage := pending;
      lastScan := Some(OfflineOutcome(record, now));
      total := total + 1;
      successful := successful + 1;
    }

    /** `processQRCode(qrData)`: an empty decode is ignored. Otherwise the
        record is built, then posted when online (`reply` answers the post) or
        appended to the queue and persisted when offline. */
    method ProcessQRCode(qrData: string, scannedAt: string, reply: Reply, now: int)
      requires Valid()
      modifies this
      ensures Valid()
      ensures qrData == "" ==> unchanged(this)
      ensures qrData != "" ==> ProcessedDecode(qrData, scannedAt, reply, now)
    {
      if qrData == "" {
        return;
      }
      var scanData := BuildRecord(qrData, scannedAt);
      if isOnline {
        PostRecord(scanData, reply, now);
      } else {
        QueueRecord(scanData, now);
      }
      scanning := false;
      pendingTimers := pendingTimers + 1;
    }

    /** `handleScan(results)`: only the first result's `rawValue` is used,
        and only when it is a non-empty string. */
    method HandleScan(results: seq<Option<string>>, scannedAt: string, reply: Reply, now: int)
      requires Valid()
      modifies this
      ensures Valid()
      ensures (|results| == 0 || results[0] == None || results[0] == Some("")) ==> unchanged(this)
      ensures |results| > 0 && results[0].Some? && results[0].value != "" ==>
        ProcessedDecode(results[0].value, scannedAt, reply, now)
    {
      if |results| == 0 {
        return;
      }
      var raw := results[0];
      if raw.Some? && raw.value != "" {
        ProcessQRCode(raw.value, scannedAt, reply, now);
      }
    }

    /** The state after a sync pass over `queue` answered by `replies`. */
    twostate predicate SyncedFrom(queue: seq<ScanRecord>, replies: seq<Reply>, now: int)
      requires |queue| == |replies|
      reads this
    {
      && pendingScans == Remaining(queue, replies)
      && total == old(total) + DeliveredCount(replies)
      && successful == old(successful) + DeliveredCount(replies)
      && failed == old(failed)
      && lastScan == LastShown(queue, replies, now, old(lastScan))
      && scanning == old(scanning) && pendingTimers == old(pendingTimers)
    }

    /** `syncPendingScans()`: every queued record is resent once, in order
        (`replies[i]` answers the resend of entry `i`); the failures are
        collected and replace both the queue and its persisted copy. */
    method SyncPendingScans(replies: seq<Reply>, now: int)
      requires Valid() && |replies| == |pendingScans|
      modifies this
      ensures Valid()
      ensures SyncedFrom(old(pendingScans), replies, now) && isOnline == old(isOnline)
    {
      if |pendingScans| == 0 {
        return;
      }
      var queue := pendingScans;
      var remaining: seq<ScanRecord> := [];
      var i := 0;
      while i < |queue|
        invariant 0 <= i <= |queue|
        invariant Valid() && pendingScans == queue
        invariant remaining == Remaining(queue[..i], replies[..i])
        invariant total == old(total) + DeliveredCount(replies[..i])
        invariant successful == old(successful) + DeliveredCount(replies[..i])
        invariant failed == old(failed)
        invariant lastScan == LastShown(queue[..i], replies[..i], now, old(lastScan))
        invariant scanning == old(scanning) && isOnline == old(isOnline)
        invariant pendingTimers == old(pendingTimers)
      {
        var error := SendToWebhook(queue[i], replies[i], now);
        if error.Some? {
          remaining := remaining + [queue[i]];
        }
        assert queue[..i + 1][..i] == queue[..i];
        assert replies[..i + 1][..i] == replies[..i];
        i := i + 1;
      }
      assert queue[..i] == queue && replies[..i] == replies;
      pendingScans := remaining;
      storage := remaining;
    }

    /** A platform `online`/`offline` event. A repeated state changes nothing;
        a change to online with a non-empty queue runs one sync pass
        (`replies` answers its resends). */
    method SetOnline(online: bool, replies: seq<Reply>, now: int)
      requires Valid()
      requires online && !isOnline ==> |replies| == |pendingScans|
      modifies this
      ensures Valid() && isOnline == online
      ensures !(online && !old(isOnline)) ==>
        && pendingScans == old(pendingScans) && lastScan == old(lastScan) && scanning == old(scanning)
        && total == old(total) && successful == old(successful) && failed == old(failed)
        && pendingTimers == old(pendingTimers)
      ensures online && !old(isOnline) ==> SyncedFrom(old(pendingScans), replies, now)
    {
      if online == isOnline {
        return;
      }
      isOnline := online;
      if isOnline && |pendingScans| > 0 {
        SyncPendingScans(replies, now);
      }
    }
  }
}
