/** Runs of the component from mount, proved from the handlers' contracts alone. */
module Scenarios {
  import opened Wrappers
  import opened Payload
  import opened Webhook
  import opened Replay
  import opened ScannerApp

  /** Three decodes while offline are queued in order (equal payloads are not
      merged), all counted as successes, and a remount from the persisted
      entry restores the same queue. */
  method OfflineScansPersist(a: string, b: string, c: string, scannedAt: string, reply: Reply, now: int)
    returns (queue: seq<ScanRecord>, restored: seq<ScanRecord>, total: nat, successful: nat)
    requires a != "" && b != "" && c != ""
    ensures queue == [BuildRecord(a, scannedAt), BuildRecord(b, scannedAt), BuildRecord(c, scannedAt)]
    ensures restored == queue
    ensures total == 3 && successful == 3
  {
    var app := new QRScannerApp.Mount([], false);
    app.Start();
    app.HandleScan([Some(a)], scannedAt, reply, now);
    app.TimerFired();
    app.HandleScan([Some(b), Some(c)], scannedAt, reply, now);
    app.TimerFired();
    app.HandleScan([Some(c)], scannedAt, reply, now);
    queue, total, successful := app.pendingScans, app.total, app.successful;
    var again := new QRScannerApp.Mount(app.storage, false);
    restored := again.pendingScans;
  }

  /** Reconnecting with `[A, B, C]` queued where only B's resend fails keeps
      exactly `[B]`, counts the two deliveries, and shows C's outcome. */
  method PartialSync(a: ScanRecord, b: ScanRecord, c: ScanRecord, ra: Reply, rb: Reply, rc: Reply, now: int)
    returns (left: seq<ScanRecord>, delivered: nat, shown: Option<ScanOutcome>)
    requires Delivers(ra) && !Delivers(rb) && Delivers(rc)
    ensures left == [b] && delivered == 2
    ensures shown == Some(DeliveredOutcome(c, rc, now))
  {
    var app := new QRScannerApp.Mount([a, b, c], false);
    app.SetOnline(true, [ra, rb, rc], now);
    PartialFailure(a, b, c, ra, rb, rc);
    ShownIsLastDelivery([a, b, c], [ra, rb, rc], now, None, 2);
    left, delivered, shown := app.pendingScans, app.successful, app.lastScan;
  }

  /** The scan cycle: start, decode, the stop button does nothing while the
      result is shown, the timer resumes capture, stop returns to idle. */
  method ScanCycle(raw: string, scannedAt: string, reply: Reply, now: int) returns (views: seq<View>)
    requires raw != ""
    ensures views == [Idle, Scanning, Result, Result, Scanning, Idle]
  {
    var app := new QRScannerApp.Mount([], true);
    views := [app.CurrentView()];
    app.Start();
    views := views + [app.CurrentView()];
    app.HandleScan([Some(raw)], scannedAt, reply, now);
    views := views + [app.CurrentView()];
    app.Stop();
    views := views + [app.CurrentView()];
    app.TimerFired();
    views := views + [app.CurrentView()];
    app.Stop();
    views := views + [app.CurrentView()];
  }

  /** An empty decode batch, a missing `rawValue` and an empty one are all ignored. */
  method IgnoredDecodes(scannedAt: string, reply: Reply, now: int) returns (total: nat, view: View)
    ensures total == 0 && view == Scanning
  {
    var app := new QRScannerApp.Mount([], true);
    app.Start();
    app.HandleScan([], scannedAt, reply, now);
    app.HandleScan([None, Some("EVENT:1")], scannedAt, reply, now);
    app.HandleScan([Some("")], scannedAt, reply, now);
    total, view := app.total, app.CurrentView();
  }

  /** A timer scheduled by an earlier decode still clears the result left by
      a delivering sync: an offline decode, reconnection with its resend
      accepted (which shows the resend's outcome and counts the one physical
      scan twice), then that decode's timer resumes capture. */
  method SyncBeforeTimer(raw: string, scannedAt: string, reply: Reply, resend: Reply, now: int)
    returns (outcome: Option<ScanOutcome>, total: nat, shown: View, after: View)
    requires raw != "" && Delivers(resend)
    ensures outcome == Some(DeliveredOutcome(BuildRecord(raw, scannedAt), resend, now))
    ensures total == 2
    ensures shown == Result && after == Scanning
  {
    var app := new QRScannerApp.Mount([], false);
    app.Start();
    app.HandleScan([Some(raw)], scannedAt, reply, now);
    var queued := app.pendingScans;
    assert queued == [BuildRecord(raw, scannedAt)];
    app.SetOnline(true, [resend], now);
    assert [resend][..0] == [] && queued[..0] == [];
    assert DeliveredCount([resend]) == 1;
    outcome, total, shown := app.lastScan, app.total, app.CurrentView();
    app.TimerFired();
    after := app.CurrentView();
  }

  /** A resend accepted while idle sets the shown outcome without scheduling
      the timer that clears it: the result view stays, and neither button nor
      the timer step leaves it. */
  method ResultAfterSync(r: ScanRecord, reply: Reply, now: int) returns (view: View, timers: nat)
    requires Delivers(reply)
    ensures view == Result && timers == 0
  {
    var app := new QRScannerApp.Mount([r], false);
    app.SetOnline(true, [reply], now);
    ShownIsLastDelivery([r], [reply], now, None, 0);
    app.Start();
    app.Stop();
    app.TimerFired();
    view, timers := app.CurrentView(), app.pendingTimers;
  }
}
