/** Destinations a neighbour must not be offered: its own routes echoed back, routes
  * beyond our neighbours in the narrow scope, anything but our own on an '=' link.
  * They are withdrawn once and never mentioned again.
  */
module BarredRuns {
  import opened Base
  import opened World
  import opened Advertise
  import opened Drain
  import opened AdvRuns

  /** Every check of `key` in the run finds it barred. */
  predicate AlwaysBarred(ops: seq<Op>, key: Key)
  {
    forall i :: 0 <= i < |ops| && ops[i].Check? && ops[i].key == key ==> Barred(ops[i].c)
  }

  /** No record for `key` from index `base` on. */
  predicate Unmentioned(log: seq<Sent>, base: nat, key: Key) { forall j :: base <= j < |log| ==> log[j].key != key }

  /** Exactly one, a withdrawal. */
  predicate RetractedOnce(log: seq<Sent>, base: nat, key: Key)
  {
    exists j :: base <= j < |log| && IsOnly(log, base, key, j) && Withdrawn(log[j])
  }

  predicate IsOnly(log: seq<Sent>, base: nat, key: Key, j: int)
  {
    base <= j < |log| && log[j].key == key && forall k :: base <= k < |log| && k != j ==> log[k].key != key
  }

  predicate CostQueued(e: Option<Adv>) { e.Some? && e.value.pending && e.value.pendingRtt < INFINITY }

  predicate Silenced(e: Option<Adv>, log: seq<Sent>, base: nat, key: Key)
  {
    || (Unmentioned(log, base, key) && !CostQueued(e))
    || (RetractedOnce(log, base, key) && e.Some? && e.value.last >= INFINITY && !e.value.pending)
  }

  lemma {:induction false} CheckKeepsSilence(advs: seq<Adv>, key: Key, c: Case, log: seq<Sent>, base: nat)
    requires AllOk(advs) && Sound(c) && KeyOk(key) && Barred(c) && Silenced(EntryOf(advs, key), log, base, key)
    ensures Silenced(EntryOf(Checked(advs, key, c), key), log, base, key)
  {
    hide Decide, AllOk, Sound, KeyOk, Unmentioned, RetractedOnce, Barred, AdvOk;
    var e := EntryOf(advs, key);
    var i := AdvIndex(advs, key, 0);
    CheckedOk(advs, key, c);
    AdvIndexIsFirst(advs, key, 0);
    if e.Some? { EntryOk(advs, i); }
    BarredQueuesNoCost(e, key, c);
    DecideOk(e, key, c);
    if e.Some? { EntryFound(Checked(advs, key, c), key, i); }
  }

  lemma {:induction false} SendKeepsSilence(advs: seq<Adv>, log: seq<Sent>, direct: set<Key>, i: nat, now: int,
                                            base: nat, key: Key)
    requires AllOk(advs) && i < |advs| && advs[i].pending && base <= |log|
    requires Silenced(EntryOf(advs, key), log, base, key)
    ensures var r := Sending(advs, log, direct, i, now); Silenced(EntryOf(r.0, key), r.1, base, key)
  {
    hide AllOk, AdvOk;
    var r := Sending(advs, log, direct, i, now);
    CommitKeepsAll(advs, i, now);
    var k := AdvIndex(advs, key, 0);
    AdvIndexIsFirst(advs, key, 0);
    AdvIndexIsFirst(r.0, key, 0);
    if k < |advs| {
      EntryFound(r.0, key, k);
      DistinctKeys(advs, i, k);
    }
    if advs[i].key == key {
      EntryFound(advs, key, i);
      EntryOk(advs, i);
      FirstMention(log, r.1[|log|], base, key, advs[i]);
    } else {
      NoMention(log, r.1[|log|], base, key);
    }
  }

  lemma {:induction false} FirstMention(log: seq<Sent>, s: Sent, base: nat, key: Key, a: Adv)
    requires Unmentioned(log, base, key) && base <= |log| && s.key == key && s.cost >= INFINITY
    ensures RetractedOnce(log + [s], base, key)
  {
    assert IsOnly(log + [s], base, key, |log|);
  }

  lemma {:induction false} NoMention(log: seq<Sent>, s: Sent, base: nat, key: Key)
    requires s.key != key && base <= |log|
    ensures Unmentioned(log, base, key) ==> Unmentioned(log + [s], base, key)
    ensures RetractedOnce(log, base, key) ==> RetractedOnce(log + [s], base, key)
  {
    if RetractedOnce(log, base, key) {
      var j :| base <= j < |log| && IsOnly(log, base, key, j) && Withdrawn(log[j]);
      assert IsOnly(log + [s], base, key, j);
    }
  }

  lemma {:induction false} SendsKeepSilence(advs: seq<Adv>, log: seq<Sent>, direct: set<Key>, n: nat, now: int,
                                            base: nat, key: Key)
    requires AllOk(advs) && n <= |advs| && base <= |log| && Silenced(EntryOf(advs, key), log, base, key)
    ensures var r := SentUpTo(advs, log, direct, n, now);
            AllOk(r.0) && |r.1| >= |log| && Silenced(EntryOf(r.0, key), r.1, base, key)
  {
    hide AllOk, Sending, Silenced, EntryOf, Emitted;
    if n > 0 {
      SendsKeepSilence(advs, log, direct, n - 1, now, base, key);
      var b := SentUpTo(advs, log, direct, n - 1, now);
      EmittedAt(advs, n - 1, n - 1, now);
      if advs[n - 1].pending {
        SendKeepsSilence(b.0, b.1, direct, n - 1, now, base, key);
        CommitKeepsAll(b.0, n - 1, now);
        SendingParts(b.0, b.1, direct, n - 1, now);
      }
    }
  }

  lemma {:induction false} SendingParts(advs: seq<Adv>, log: seq<Sent>, direct: set<Key>, i: nat, now: int)
    requires i < |advs|
    ensures var r := Sending(advs, log, direct, i, now); r.0 == advs[i := Committed(advs[i], now)] && |r.1| == |log| + 1
  {
  }

  lemma {:induction false} OpKeepsSilence(a: Account, op: Op, t: int, base: nat, key: Key)
    requires AccountOk(a, t) && CanFollow(op, t) && t > 0 && base <= |a.log|
    requires op.Check? && op.key == key ==> Barred(op.c)
    requires Silenced(EntryOf(a.q.advs, key), a.log, base, key)
    ensures AllOk(a.q.advs) && var b := After(a, op);
            |b.log| >= |a.log| && Silenced(EntryOf(b.q.advs, key), b.log, base, key)
  {
    hide AccountOk, AllOk, Silenced, EntryOf, Checked, DrainOnce, DirectAfter, Sound, KeyOk, Barred, Reached;
    AccountTable(a, t);
    match op {
      case Check(k, c) =>
        if k == key { CheckKeepsSilence(a.q.advs, key, c, a.log, base); } else { CheckElsewhere(a.q.advs, k, c, key); }
      case Owe =>
      case Drain(closed, pcf, now) =>
        var n := Reached(a.q, closed, pcf, now);
        DrainKeepsEntries(a.q, closed, pcf, now);
        AccountQueueOk(a, t);
        DrainConserves(a.q, closed, pcf, now);
        SendsLogTheQueue(a.q.advs, a.log, a.direct, n, now);
        SendsKeepSilence(a.q.advs, a.log, a.direct, n, now, base, key);
    }
  }

  lemma {:induction false} AccountQueueOk(a: Account, t: int)
    requires AccountOk(a, t)
    ensures QueueOk(a.q)
  {
  }

  lemma {:induction false} RunKeepsSilence(a: Account, ops: seq<Op>, t: int, base: nat, key: Key)
    requires AccountOk(a, t) && t > 0 && Timely(ops, t) && AlwaysBarred(ops, key) && base <= |a.log|
    requires Silenced(EntryOf(a.q.advs, key), a.log, base, key)
    ensures var b := Ran(a, ops, t); Silenced(EntryOf(b.q.advs, key), b.log, base, key)
    decreases |ops|
  {
    hide AccountOk, Silenced, EntryOf, AllOk, Barred;
    if ops != [] {
      OpKeepsSilence(a, ops[0], t, base, key);
      OpKeepsAccount(a, ops[0], t);
      RunKeepsSilence(After(a, ops[0]), ops[1..], Clock(ops[0], t), base, key);
    }
  }

  /** Split horizon and scope over whole runs. From any state in which no cost for it is
      queued, a destination that stays barred is never sent a cost again: at most one
      record for it goes out, and that is its withdrawal. */
  lemma {:induction false} BarredIsRetractedOnce(a: Account, ops: seq<Op>, t: int, key: Key)
    requires AccountOk(a, t) && t > 0 && Timely(ops, t) && AlwaysBarred(ops, key) && !CostQueued(EntryOf(a.q.advs, key))
    ensures var log := Ran(a, ops, t).log; Unmentioned(log, |a.log|, key) || RetractedOnce(log, |a.log|, key)
  {
    hide AccountOk, Ran, EntryOf, Timely, AlwaysBarred;
    RunKeepsSilence(a, ops, t, |a.log|, key);
  }
}
