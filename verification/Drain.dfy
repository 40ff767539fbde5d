/** Draining one peer's queue through its token bucket: which records go out, in
  * which frames, and what is left.
  */
module Drain {
  import opened Text
  import opened Advertise
  import opened CompactCodec

  const FRAME_BYTES := 200
  const EOB_QUIET_REFILLS := 2

  /** Per peer family: PC/Flexnet or (X)Net-like. */
  function RefillSeconds(pcf: bool): nat { if pcf then 5 else 2 }

  function BucketSize(pcf: bool): nat { if pcf then 2 else 4 }

  function FrameRecords(pcf: bool): nat { if pcf then 16 else 20 }

  // ----- what goes into frames

  /** The record a queued entry puts on the wire. */
  function RecOf(a: Adv): Rec { Rec(a.key.call, a.key.lo, a.key.hi, a.pendingRtt) }

  function RecLen(a: Adv): nat
    requires AdvOk(a) && a.pending
  {
    |RouteRec(RecOf(a))|
  }

  /** The entry once its record has been sent. */
  function Committed(a: Adv, now: int): Adv
  {
    a.(last := a.pendingRtt, lastPen := a.pendingPen, lastAt := now, pending := false)
  }

  /** The table after the queued entries before `n` have been sent. */
  function Emitted(advs: seq<Adv>, n: nat, now: int): (r: seq<Adv>)
    requires n <= |advs|
    ensures |r| == |advs|
    ensures forall i :: 0 <= i < |advs| ==>
            r[i] == if i < n && advs[i].pending then Committed(advs[i], now) else advs[i]
  {
    seq(|advs|, i requires 0 <= i < |advs| => if i < n && advs[i].pending then Committed(advs[i], now) else advs[i])
  }

  /** Records of the queued entries from `i` up to `n`, in table order. */
  function QueuedRecs(advs: seq<Adv>, i: nat, n: nat): seq<Rec>
    requires i <= n <= |advs|
    decreases n - i
  {
    if i == n then [] else (if advs[i].pending then [RecOf(advs[i])] else []) + QueuedRecs(advs, i + 1, n)
  }

  lemma {:induction false} QueuedSplit(advs: seq<Adv>, i: nat, m: nat, n: nat)
    requires i <= m <= n <= |advs|
    ensures QueuedRecs(advs, i, n) == QueuedRecs(advs, i, m) + QueuedRecs(advs, m, n)
    decreases m - i
  {
    if i < m { QueuedSplit(advs, i + 1, m, n); }
  }

  lemma {:induction false} QueuedWritable(advs: seq<Adv>, i: nat, n: nat)
    requires AllOk(advs) && i <= n <= |advs|
    ensures AllWritable(QueuedRecs(advs, i, n))
    decreases n - i
  {
    if i < n {
      QueuedWritable(advs, i + 1, n);
      assert AdvOk(advs[i]);
    }
  }

  predicate NothingQueued(advs: seq<Adv>, i: nat)
  {
    forall k :: i <= k < |advs| ==> !advs[k].pending
  }

  lemma {:induction false} NothingQueuedNoRecs(advs: seq<Adv>, i: nat, n: nat)
    requires i <= n <= |advs|
    ensures QueuedRecs(advs, i, n) == [] <==> forall k :: i <= k < n ==> !advs[k].pending
    decreases n - i
  {
    if i < n { NothingQueuedNoRecs(advs, i + 1, n); }
  }

  /** Index after the last entry that goes into the frame begun at `i`, when
      `used` bytes and `count` records are in it already. */
  function FrameEnd(advs: seq<Adv>, i: nat, used: nat, count: nat, max: nat): (e: nat)
    requires AllOk(advs) && i <= |advs|
    ensures i <= e <= |advs|
    decreases |advs| - i
  {
    if i == |advs| || count >= max then i
    else if !advs[i].pending then FrameEnd(advs, i + 1, used, count, max)
    else if used + RecLen(advs[i]) + 1 >= FRAME_BYTES then i
    else FrameEnd(advs, i + 1, used + RecLen(advs[i]), count + 1, max)
  }

  /** A record is at most fourteen bytes, so it always fits an empty frame. */
  lemma {:induction false} RecordFits(a: Adv)
    requires AdvOk(a) && a.pending
    ensures 10 <= RecLen(a) <= 14
  {
    assert Pow10(5) == 100000 by { assert Pow10(3) == 1000; }
    DecimalLength(WireCost(a.pendingRtt), 5);
  }

  lemma {:induction false} FrameEndStep(advs: seq<Adv>, i: nat, used: nat, count: nat, max: nat)
    requires AllOk(advs) && i < |advs| && count < max
    ensures FrameEnd(advs, i, used, count, max) ==
            if !advs[i].pending then FrameEnd(advs, i + 1, used, count, max)
            else if used + RecLen(advs[i]) + 1 >= FRAME_BYTES then i
            else FrameEnd(advs, i + 1, used + RecLen(advs[i]), count + 1, max)
  {
  }

  lemma {:induction false} QueuedStep(advs: seq<Adv>, i: nat, e: nat)
    requires AllOk(advs) && i < e <= |advs|
    ensures AllWritable(QueuedRecs(advs, i + 1, e)) && AllWritable(QueuedRecs(advs, i, e))
    ensures QueuedRecs(advs, i, e) == (if advs[i].pending then [RecOf(advs[i])] else []) + QueuedRecs(advs, i + 1, e)
    ensures |PackRecs(QueuedRecs(advs, i, e))| ==
            (if advs[i].pending then RecLen(advs[i]) else 0) + |PackRecs(QueuedRecs(advs, i + 1, e))|
  {
    hide RouteRec, AdvOk;
    QueuedWritable(advs, i, e);
    QueuedWritable(advs, i + 1, e);
    var rest := QueuedRecs(advs, i + 1, e);
    if advs[i].pending {
      assert ([RecOf(advs[i])] + rest)[1..] == rest;
    } else {
      assert [] + rest == rest;
    }
  }

  /** The frame keeps within its byte and record limits, and an empty frame takes at
      least one record if any is queued. */
  lemma {:induction false} FrameFits(advs: seq<Adv>, i: nat, used: nat, count: nat, max: nat)
    requires AllOk(advs) && i <= |advs| && used + 1 <= 200 && count <= max
    ensures var e := FrameEnd(advs, i, used, count, max); var rs := QueuedRecs(advs, i, e);
            && AllWritable(rs)
            && used + |PackRecs(rs)| + 1 <= 200
            && count + |rs| <= max
            && (used <= 20 && count < max ==> rs != [] || NothingQueued(advs, i))
    decreases |advs| - i
  {
    hide FrameEnd, PackRecs, RecLen, AllOk;
    var e := FrameEnd(advs, i, used, count, max);
    if i == |advs| || count >= max {
      FrameIsFull(advs, i, used, count, max);
    } else {
      FrameEndStep(advs, i, used, count, max);
      if !advs[i].pending {
        FrameFits(advs, i + 1, used, count, max);
        QueuedStep(advs, i, e);
      } else {
        EntryOk(advs, i);
        RecordFits(advs[i]);
        if used + RecLen(advs[i]) + 1 < FRAME_BYTES {
          FrameFits(advs, i + 1, used + RecLen(advs[i]), count + 1, max);
          QueuedStep(advs, i, e);
        } else {
          EmptyPackLength();
        }
      }
    }
  }

  /** A frame ends only when it has all its records, or the queue is through, or the next
      queued record would not fit. */
  lemma {:induction false} FrameIsGreedy(advs: seq<Adv>, i: nat, used: nat, count: nat, max: nat)
    requires AllOk(advs) && i <= |advs| && used + 1 <= 200 && count <= max
    ensures var e := FrameEnd(advs, i, used, count, max); var rs := QueuedRecs(advs, i, e);
            && AllWritable(rs)
            && (e == |advs| || count + |rs| == max ||
                (advs[e].pending && used + |PackRecs(rs)| + RecLen(advs[e]) + 1 >= 200))
    decreases |advs| - i
  {
    hide FrameEnd, PackRecs, RecLen, AllOk;
    var e := FrameEnd(advs, i, used, count, max);
    QueuedWritable(advs, i, e);
    if i == |advs| || count >= max {
      FrameIsFull(advs, i, used, count, max);
    } else {
      FrameEndStep(advs, i, used, count, max);
      EntryOk(advs, i);
      if !advs[i].pending {
        FrameIsGreedy(advs, i + 1, used, count, max);
        QueuedStep(advs, i, e);
      } else if used + RecLen(advs[i]) + 1 < FRAME_BYTES {
        FrameIsGreedy(advs, i + 1, used + RecLen(advs[i]), count + 1, max);
        QueuedStep(advs, i, e);
      } else {
        EmptyPackLength();
        FrameIsFull(advs, i, used, max, max);
      }
    }
  }

  lemma {:induction false} EntryOk(advs: seq<Adv>, i: nat)
    requires AllOk(advs) && i < |advs|
    ensures AdvOk(advs[i])
  {
  }

  lemma {:induction false} EmptyPackLength()
    ensures AllWritable([]) && PackRecs([]) == ""
  {
  }

  lemma {:induction false} FrameIsFull(advs: seq<Adv>, i: nat, used: nat, count: nat, max: nat)
    requires AllOk(advs) && i <= |advs| && (i == |advs| || count >= max)
    ensures FrameEnd(advs, i, used, count, max) == i && PackRecs(QueuedRecs(advs, i, i)) == ""
    ensures QueuedRecs(advs, i, i) == []
  {
  }

  /** Frames sent while whole tokens last: the index reached and the frames. */
  function Frames(advs: seq<Adv>, i: nat, tokens: real, max: nat): (r: (nat, seq<seq<Rec>>))
    requires AllOk(advs) && i <= |advs|
    ensures i <= r.0 <= |advs|
    decreases |advs| - i
  {
    if tokens < 1.0 then (i, [])
    else
      var e := FrameEnd(advs, i, 1, 0, max);
      var rs := QueuedRecs(advs, i, e);
      if rs == [] then (i, [])
      else
        assert e > i;
        var rest := Frames(advs, e, tokens - 1.0, max);
        (rest.0, [rs] + rest.1)
  }

  lemma {:induction false} FramesStep(advs: seq<Adv>, i: nat, tokens: real, max: nat)
    requires AllOk(advs) && i <= |advs|
    ensures tokens < 1.0 ==> Frames(advs, i, tokens, max) == (i, [])
    ensures tokens >= 1.0 ==>
              var e := FrameEnd(advs, i, 1, 0, max); var rs := QueuedRecs(advs, i, e);
              if rs == [] then Frames(advs, i, tokens, max) == (i, [])
              else
                var rest := Frames(advs, e, tokens - 1.0, max);
                e > i && Frames(advs, i, tokens, max) == (rest.0, [rs] + rest.1)
  {
    hide AllOk, FrameEnd;
  }

  function Flatten(fs: seq<seq<Rec>>): seq<Rec>
  {
    if fs == [] then [] else fs[0] + Flatten(fs[1..])
  }

  /** Every frame fits, none is empty, together they carry exactly the queued
      records up to the index reached, each once and in order; the draining stops
      only when no whole token is left or nothing is queued. */
  lemma {:induction false} FramesCarryTheQueue(advs: seq<Adv>, i: nat, tokens: real, max: nat)
    requires AllOk(advs) && i <= |advs| && max >= 1
    ensures var r := Frames(advs, i, tokens, max);
            && Flatten(r.1) == QueuedRecs(advs, i, r.0)
            && (forall k :: 0 <= k < |r.1| ==>
                  r.1[k] != [] && |r.1[k]| <= max && AllWritable(r.1[k]) && |Pack(r.1[k])| <= 200)
            && (tokens - |r.1| as real < 1.0 || NothingQueued(advs, r.0))
            && (tokens >= 0.0 ==> |r.1| as real <= tokens)
    decreases |advs| - i
  {
    hide AllOk, FrameEnd, QueuedRecs, PackRecs;
    var e := FrameEnd(advs, i, 1, 0, max);
    var rs := QueuedRecs(advs, i, e);
    FrameFits(advs, i, 1, 0, max);
    FrameIsFull(advs, i, 1, max, max);
    if tokens >= 1.0 && rs != [] {
      FramesCarryTheQueue(advs, e, tokens - 1.0, max);
      var rest := Frames(advs, e, tokens - 1.0, max);
      QueuedSplit(advs, i, e, rest.0);
      assert ([rs] + rest.1)[1..] == rest.1;
    }
  }

  // ----- the bucket and the end-of-batch mark

  datatype Queue = Queue(advs: seq<Adv>, tokens: real, lastRefill: int, eobPending: bool, eobSince: int)

  const EMPTY_QUEUE := Queue([], 0.0, 0, false, 0)

  predicate QueueOk(q: Queue)
  {
    AllOk(q.advs) && q.tokens >= 0.0 && q.lastRefill >= 0 && (!q.eobPending ==> q.eobSince == 0)
  }

  /** Tokens that arrive in `seconds`. */
  function Gained(pcf: bool, seconds: int): real { if pcf then seconds as real / 5.0 else seconds as real / 2.0 }

  lemma {:induction false} GainedAdds(pcf: bool, a: int, b: int)
    ensures Gained(pcf, a + b) == Gained(pcf, a) + Gained(pcf, b)
    ensures a >= 0 ==> Gained(pcf, a) >= 0.0
    ensures Gained(pcf, RefillSeconds(pcf)) == 1.0
  {
  }

  function Refilled(q: Queue, pcf: bool, now: int): real
  {
    if q.lastRefill == 0 then BucketSize(pcf) as real
    else if now > q.lastRefill then
      var t := q.tokens + Gained(pcf, now - q.lastRefill);
      if t > BucketSize(pcf) as real then BucketSize(pcf) as real else t
    else q.tokens
  }

  /** Frames sent, and whether the owed end-of-batch mark went out. */
  datatype Drained = Drained(q: Queue, frames: seq<seq<Rec>>, eob: bool)

  predicate AnyQueued(advs: seq<Adv>) { exists i :: 0 <= i < |advs| && advs[i].pending }

  function WithEob(q: Queue, frames: seq<seq<Rec>>, pcf: bool, now: int): Drained
  {
    if !q.eobPending then Drained(q, frames, false)
    else if AnyQueued(q.advs) || frames != [] then Drained(q.(eobSince := 0), frames, false)
    else if q.eobSince == 0 then Drained(q.(eobSince := now), frames, false)
    else if now - q.eobSince >= RefillSeconds(pcf) * EOB_QUIET_REFILLS then
      Drained(q.(eobPending := false, eobSince := 0), frames, true)
    else Drained(q, frames, false)
  }

  /** flex_advertise_drain; `closed` means the peer may not be sent records now. */
  function DrainOnce(q: Queue, closed: bool, pcf: bool, now: int): Drained
    requires AllOk(q.advs)
  {
    if !AnyQueued(q.advs) && !q.eobPending then Drained(q, [], false)
    else
      var tokens := Refilled(q, pcf, now);
      var stamp := if q.lastRefill == 0 || now > q.lastRefill then now else q.lastRefill;
      var f := if closed then (0, []) else Frames(q.advs, 0, tokens, FrameRecords(pcf));
      WithEob(q.(advs := Emitted(q.advs, f.0, now), tokens := tokens - |f.1| as real, lastRefill := stamp), f.1, pcf,
        now)
  }

  /** Index of the first entry a drain leaves alone. */
  function Reached(q: Queue, closed: bool, pcf: bool, now: int): (n: nat)
    requires AllOk(q.advs)
    ensures n <= |q.advs|
  {
    if closed || (!AnyQueued(q.advs) && !q.eobPending) then 0
    else Frames(q.advs, 0, Refilled(q, pcf, now), FrameRecords(pcf)).0
  }

  /** The queue after `frames` went out, before the owed mark is considered. */
  function Spent(q: Queue, frames: seq<seq<Rec>>, n: nat, pcf: bool, now: int): Queue
    requires n <= |q.advs|
  {
    var stamp := if q.lastRefill == 0 || now > q.lastRefill then now else q.lastRefill;
    q.(advs := Emitted(q.advs, n, now), tokens := Refilled(q, pcf, now) - |frames| as real, lastRefill := stamp)
  }

  lemma {:induction false} BusyDrain(q: Queue, closed: bool, pcf: bool, now: int)
    requires AllOk(q.advs) && (AnyQueued(q.advs) || q.eobPending)
    ensures var f := if closed then (0, []) else Frames(q.advs, 0, Refilled(q, pcf, now), FrameRecords(pcf));
            DrainOnce(q, closed, pcf, now) == WithEob(Spent(q, f.1, f.0, pcf, now), f.1, pcf, now)
  {
    hide AllOk, Frames, Refilled, Emitted, AnyQueued, WithEob;
  }

  lemma {:induction false} CommittedOk(a: Adv, now: int)
    requires AdvOk(a) && a.pending
    ensures AdvOk(Committed(a, now)) && Committed(a, now).key == a.key
  {
  }

  /** The drain conserves the queue: with `n` the index reached, every entry queued
      before `n` has been sent exactly once with its queued value and is committed
      as last advertised, every other entry is untouched; each frame fits; and the
      drain stops only for want of a token, for want of records, or because the
      peer is closed. */
  lemma {:induction false} DrainConserves(q: Queue, closed: bool, pcf: bool, now: int)
    requires QueueOk(q) && now > 0
    ensures var d := DrainOnce(q, closed, pcf, now); var n := Reached(q, closed, pcf, now);
            && QueueOk(d.q) && |d.q.advs| == |q.advs|
            && d.q.advs == Emitted(q.advs, n, now) && Flatten(d.frames) == QueuedRecs(q.advs, 0, n)
            && (forall k :: 0 <= k < |d.frames| ==>
                  d.frames[k] != [] && |d.frames[k]| <= (if pcf then 16 else 20) && AllWritable(d.frames[k]) &&
                    |Pack(d.frames[k])| <= 200)
            && (closed ==> d.frames == [])
            && (!closed && AnyQueued(d.q.advs) ==> d.q.tokens < 1.0)
            && (d.eob ==> d.frames == [] && !AnyQueued(d.q.advs) && q.eobPending && q.eobSince != 0
                          && now - q.eobSince >= (if pcf then 10 else 4))
  {
    hide Frames, FrameEnd, AdvOk, Refilled, RefillSeconds, Committed;
    QuietTime(pcf);
    var d := DrainOnce(q, closed, pcf, now);
    if AnyQueued(q.advs) || q.eobPending {
      var tokens := Refilled(q, pcf, now);
      RefilledBounds(q, pcf, now);
      var f := if closed then (0, []) else Frames(q.advs, 0, tokens, FrameRecords(pcf));
      FramesCarryTheQueue(q.advs, 0, tokens, FrameRecords(pcf));
      EmittedOk(q.advs, f.0, now);
      EmittedQueued(q.advs, f.0, now);
      assert d.q.advs == Emitted(q.advs, f.0, now) && d.frames == f.1;
    } else {
      assert d.q.advs == Emitted(q.advs, 0, now) && QueuedRecs(q.advs, 0, 0) == [];
    }
  }

  lemma {:induction false} QuietTime(pcf: bool)
    ensures RefillSeconds(pcf) * EOB_QUIET_REFILLS == (if pcf then 10 else 4)
    ensures FrameRecords(pcf) == (if pcf then 16 else 20)
  {
  }

  lemma {:induction false} DrainKeepsEntries(q: Queue, closed: bool, pcf: bool, now: int)
    requires AllOk(q.advs)
    ensures DrainOnce(q, closed, pcf, now).q.advs == Emitted(q.advs, Reached(q, closed, pcf, now), now)
    ensures AllOk(DrainOnce(q, closed, pcf, now).q.advs)
  {
    hide AllOk, Frames, AnyQueued, Refilled, Committed;
    EmittedOk(q.advs, Reached(q, closed, pcf, now), now);
    EmittedOk(q.advs, 0, now);
    if !AnyQueued(q.advs) && !q.eobPending { assert Emitted(q.advs, 0, now) == q.advs; }
  }

  lemma {:induction false} RefilledBounds(q: Queue, pcf: bool, now: int)
    requires q.tokens >= 0.0
    ensures Refilled(q, pcf, now) >= 0.0
  {
    GainedAdds(pcf, now - q.lastRefill, 0);
  }

  lemma {:induction false} EmittedOk(advs: seq<Adv>, n: nat, now: int)
    requires AllOk(advs) && n <= |advs|
    ensures AllOk(Emitted(advs, n, now))
  {
    hide AdvOk;
    forall i | 0 <= i < |advs| ensures AdvOk(Emitted(advs, n, now)[i]) && Emitted(advs, n, now)[i].key == advs[i].key {
      if i < n && advs[i].pending { CommittedOk(advs[i], now); }
    }
  }

  lemma {:induction false} EmittedQueued(advs: seq<Adv>, n: nat, now: int)
    requires n <= |advs|
    ensures AnyQueued(Emitted(advs, n, now)) <==> !NothingQueued(advs, n)
  {
    var r := Emitted(advs, n, now);
    forall i | 0 <= i < |advs| ensures r[i].pending <==> i >= n && advs[i].pending {
    }
    if !NothingQueued(advs, n) {
      var k :| n <= k < |advs| && advs[k].pending;
      assert r[k].pending;
    }
  }
}
