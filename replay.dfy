/** What one pass of `syncPendingScans` computes from the queue and the
    replies its resends receive, as functions of those two sequences. Entry `i`
    of the queue is resent once and answered by `replies[i]`. */
module Replay {
  import opened Wrappers
  import opened Payload
  import opened Webhook

  /** The entries kept for the next pass (`remaining`), in queue order. */
  function Remaining(queue: seq<ScanRecord>, replies: seq<Reply>): seq<ScanRecord>
    requires |queue| == |replies|
    decreases |queue|
  {
    if queue == [] then []
    else
      var n := |queue| - 1;
      Remaining(queue[..n], replies[..n]) + (if Delivers(replies[n]) then [] else [queue[n]])
  }

  /** How many resends were accepted. */
  function DeliveredCount(replies: seq<Reply>): nat
    decreases |replies|
  {
    if replies == [] then 0
    else
      var n := |replies| - 1;
      DeliveredCount(replies[..n]) + (if Delivers(replies[n]) then 1 else 0)
  }

  /** `lastScan` after the pass: each accepted resend overwrites it. */
  function LastShown(queue: seq<ScanRecord>, replies: seq<Reply>, now: int, before: Option<ScanOutcome>): Option<ScanOutcome>
    requires |queue| == |replies|
    decreases |queue|
  {
    if queue == [] then before
    else
      var n := |queue| - 1;
      if Delivers(replies[n]) then Some(DeliveredOutcome(queue[n], replies[n], now))
      else LastShown(queue[..n], replies[..n], now, before)
  }

  /** The positions whose resend failed, in increasing order. */
  function FailedPositions(replies: seq<Reply>): (ps: seq<nat>)
    ensures forall k :: 0 <= k < |ps| ==> ps[k] < |replies| && !Delivers(replies[ps[k]])
    ensures forall k, l :: 0 <= k < l < |ps| ==> ps[k] < ps[l]
    ensures forall i :: 0 <= i < |replies| && !Delivers(replies[i]) ==> i in ps
    decreases |replies|
  {
    if replies == [] then []
    else
      var n := |replies| - 1;
      FailedPositions(replies[..n]) + (if Delivers(replies[n]) then [] else [n])
  }

  /** The kept entries are exactly the queue entries at the failed positions,
      in their original relative order. */
  lemma {:induction false} RemainingAreFailures(queue: seq<ScanRecord>, replies: seq<Reply>)
    requires |queue| == |replies|
    ensures |Remaining(queue, replies)| == |FailedPositions(replies)|
    ensures forall k :: 0 <= k < |FailedPositions(replies)| ==>
      Remaining(queue, replies)[k] == queue[FailedPositions(replies)[k]]
    decreases |queue|
  {
    if queue != [] {
      var n := |queue| - 1;
      RemainingAreFailures(queue[..n], replies[..n]);
      var kept, ps := Remaining(queue[..n], replies[..n]), FailedPositions(replies[..n]);
      var kept', ps' := Remaining(queue, replies), FailedPositions(replies);
      if Delivers(replies[n]) {
        assert kept' == kept && ps' == ps;
      } else {
        assert kept' == kept + [queue[n]] && ps' == ps + [n];
      }
      forall k | 0 <= k < |ps'| ensures kept'[k] == queue[ps'[k]] {
        if k < |ps| {
          assert kept'[k] == kept[k] == queue[..n][ps[k]];
        }
      }
    }
  }

  /** Every entry is either delivered or kept: the pass never grows the queue. */
  lemma {:induction false} RemainingPlusDelivered(queue: seq<ScanRecord>, replies: seq<Reply>)
    requires |queue| == |replies|
    ensures |Remaining(queue, replies)| + DeliveredCount(replies) == |queue|
    ensures |Remaining(queue, replies)| <= |queue|
    decreases |queue|
  {
    if queue != [] {
      var n := |queue| - 1;
      RemainingPlusDelivered(queue[..n], replies[..n]);
    }
  }

  /** When no resend is accepted the queue and the shown outcome are left as they were. */
  lemma {:induction false} NothingDelivered(queue: seq<ScanRecord>, replies: seq<Reply>, now: int, before: Option<ScanOutcome>)
    requires |queue| == |replies|
    requires forall i :: 0 <= i < |replies| ==> !Delivers(replies[i])
    ensures Remaining(queue, replies) == queue
    ensures DeliveredCount(replies) == 0
    ensures LastShown(queue, replies, now, before) == before
    decreases |queue|
  {
    if queue != [] {
      var n := |queue| - 1;
      NothingDelivered(queue[..n], replies[..n], now, before);
      assert queue[..n] + [queue[n]] == queue;
    }
  }

  /** After a pass in which some resend was accepted, the result view shows
      the success outcome of the last accepted entry. */
  lemma {:induction false} ShownIsLastDelivery(queue: seq<ScanRecord>, replies: seq<Reply>, now: int, before: Option<ScanOutcome>, j: nat)
    requires |queue| == |replies|
    requires j < |replies| && Delivers(replies[j])
    requires forall l :: j < l < |replies| ==> !Delivers(replies[l])
    ensures LastShown(queue, replies, now, before) == Some(DeliveredOutcome(queue[j], replies[j], now))
    ensures LastShown(queue, replies, now, before).value.success
    decreases |queue|
  {
    var n := |queue| - 1;
    if j < n {
      ShownIsLastDelivery(queue[..n], replies[..n], now, before, j);
    }
  }

  /** Queue `[A, B, C]` where only B's resend fails leaves exactly `[B]`. */
  lemma PartialFailure(a: ScanRecord, b: ScanRecord, c: ScanRecord, ra: Reply, rb: Reply, rc: Reply)
    requires Delivers(ra) && !Delivers(rb) && Delivers(rc)
    ensures Remaining([a, b, c], [ra, rb, rc]) == [b]
    ensures DeliveredCount([ra, rb, rc]) == 2
  {
    assert [a, b, c][..2] == [a, b] && [a, b][..1] == [a] && [a][..0] == [];
    assert [ra, rb, rc][..2] == [ra, rb] && [ra, rb][..1] == [ra] && [ra][..0] == [];
    assert Remaining([a], [ra]) == [];
    assert Remaining([a, b], [ra, rb]) == [b];
    assert DeliveredCount([ra]) == 1;
    assert DeliveredCount([ra, rb]) == 1;
  }
}
