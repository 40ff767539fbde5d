/** What one peer has been told since its table was last cleared, over whole runs
  * of checks and drains.
  */
module AdvRuns {
  import opened Base
  import opened World
  import opened Advertise
  import opened CompactCodec
  import opened Drain

  /** A record on the wire; `direct` says whether the cheapest source was a direct
      neighbour when the record was last queued or refreshed. */
  datatype Sent = Sent(key: Key, cost: int, at: int, direct: bool)

  /** A peer's table with its history: the records sent, and the destinations whose
      latest decision was about a direct neighbour. */
  datatype Account = Account(q: Queue, log: seq<Sent>, direct: set<Key>)

  const EMPTY_ACCOUNT := Account(EMPTY_QUEUE, [], {})

  function KeyOf(r: Rec): Key { Key(r.call, r.lo, r.hi) }

  function Stamped(rs: seq<Rec>, direct: set<Key>, now: int): (l: seq<Sent>)
    ensures |l| == |rs|
    ensures forall i :: 0 <= i < |rs| ==> l[i] == Sent(KeyOf(rs[i]), rs[i].cost, now, KeyOf(rs[i]) in direct)
  {
    seq(|rs|, i requires 0 <= i < |rs| => Sent(KeyOf(rs[i]), rs[i].cost, now, KeyOf(rs[i]) in direct))
  }

  function DirectAfter(direct: set<Key>, advs: seq<Adv>, key: Key, c: Case): set<Key>
  {
    if Decide(EntryOf(advs, key), key, c).None? then direct
    else if c.best.direct then direct + {key} else direct - {key}
  }

  function AfterCheck(a: Account, key: Key, c: Case): Account
  {
    a.(q := a.q.(advs := Checked(a.q.advs, key, c)), direct := DirectAfter(a.direct, a.q.advs, key, c))
  }

  function AfterDrain(a: Account, closed: bool, pcf: bool, now: int): Account
    requires AllOk(a.q.advs)
  {
    var d := DrainOnce(a.q, closed, pcf, now);
    a.(q := d.q, log := a.log + Stamped(Flatten(d.frames), a.direct, now))
  }

  // ----- the history of one destination

  /** Index of the last record for `key`, or -1. */
  function LastIdx(log: seq<Sent>, key: Key): (k: int)
    ensures -1 <= k < |log| && (k >= 0 ==> log[k].key == key)
  {
    if log == [] then -1
    else if log[|log| - 1].key == key then |log| - 1
    else LastIdx(log[..|log| - 1], key)
  }

  lemma {:induction false} LastIdxIsLast(log: seq<Sent>, key: Key)
    ensures forall k :: LastIdx(log, key) < k < |log| ==> log[k].key != key
  {
    if log != [] && log[|log| - 1].key != key {
      LastIdxIsLast(log[..|log| - 1], key);
      assert forall k :: 0 <= k < |log| - 1 ==> log[..|log| - 1][k] == log[k];
    }
  }

  lemma {:induction false} LastIdxSnoc(log: seq<Sent>, s: Sent, key: Key)
    ensures LastIdx(log + [s], key) == if s.key == key then |log| else LastIdx(log, key)
  {
    assert (log + [s])[..|log|] == log;
  }

  predicate Withdrawn(s: Sent) { s.cost >= INFINITY }

  /** No withdrawal goes out for a destination the peer has not been sent a finite
      cost for before. */
  predicate HeardBefore(log: seq<Sent>)
  {
    forall j :: 0 <= j < |log| && Withdrawn(log[j]) ==>
      exists i :: 0 <= i < j && log[i].key == log[j].key && !Withdrawn(log[i])
  }

  /** A finite record less than ninety seconds after a withdrawal of the same
      destination: a direct neighbour's record has been sent since. */
  predicate HeldSince(log: seq<Sent>, i: int, j: int)
    requires 0 <= i < j < |log|
  {
    && log[i].key == log[j].key && Withdrawn(log[i]) && !Withdrawn(log[j]) && log[j].at - log[i].at < 90
    ==> exists k :: i < k <= j && log[k].key == log[j].key && log[k].direct && !Withdrawn(log[k])
  }

  predicate HeldDownRecords(log: seq<Sent>)
  {
    forall i, j :: 0 <= i < j < |log| ==> HeldSince(log, i, j)
  }

  predicate Known(advs: seq<Adv>, key: Key) { exists i :: 0 <= i < |advs| && advs[i].key == key }

  /** The entry remembers the last record sent for its destination. */
  predicate Remembers(a: Adv, log: seq<Sent>)
  {
    var k := LastIdx(log, a.key);
    if k < 0 then a.last == -1 else a.last == log[k].cost && a.lastAt == log[k].at
  }

  /** A finite cost queued on hearsay after a withdrawal has waited its time. */
  predicate Waited(a: Adv, direct: set<Key>, t: int)
  {
    a.pending && a.pendingRtt < INFINITY && a.last >= INFINITY && a.key !in direct ==> t - a.lastAt >= 90
  }

  predicate LogOk(log: seq<Sent>, t: int)
  {
    && (forall k :: 0 <= k < |log| ==> log[k].at <= t && log[k].cost >= 1)
    && (forall i, j :: 0 <= i < j < |log| ==> log[i].at <= log[j].at)
    && (forall j :: 0 <= j < |log| && LastIdx(log[..j], log[j].key) < 0 ==> !Withdrawn(log[j]))
    && HeldDownRecords(log)
  }

  predicate TableOk(advs: seq<Adv>, log: seq<Sent>, direct: set<Key>, t: int)
  {
    && AllOk(advs)
    && (forall i :: 0 <= i < |advs| ==> Remembers(advs[i], log) && Waited(advs[i], direct, t))
    && (forall k :: 0 <= k < |log| ==> Known(advs, log[k].key))
  }

  /** What holds of a peer's account at time `t`. */
  predicate AccountOk(a: Account, t: int)
  {
    QueueOk(a.q) && TableOk(a.q.advs, a.log, a.direct, t) && LogOk(a.log, t)
  }

  lemma {:induction false} EmptyAccountOk(t: int)
    ensures AccountOk(EMPTY_ACCOUNT, t)
  {
  }

  lemma {:induction false} LaterAccountOk(a: Account, t: int, u: int)
    requires AccountOk(a, t) && t <= u
    ensures AccountOk(a, u)
  {
    hide Known, Remembers, AllOk, HeldDownRecords, QueueOk;
  }

  // ----- a check keeps it

  lemma {:induction false} DecidedWaited(e: Option<Adv>, key: Key, c: Case, direct: set<Key>)
    requires e.Some? ==> e.value.key == key
    requires Decide(e, key, c).Some?
    ensures var b := Decide(e, key, c).value;
            b.key == key && (b.pending && b.pendingRtt < INFINITY && b.last >= INFINITY && !c.best.direct ==>
              c.now - b.lastAt >= 90)
  {
    hide Fires, Bare;
  }

  lemma {:induction false} CheckKeepsTable(advs: seq<Adv>, log: seq<Sent>, direct: set<Key>, t: int, key: Key, c: Case)
    requires TableOk(advs, log, direct, t) && Sound(c) && KeyOk(key) && t <= c.now
    ensures TableOk(Checked(advs, key, c), log, DirectAfter(direct, advs, key, c), c.now)
  {
    hide Decide, AllOk, Sound, KeyOk;
    var r := Checked(advs, key, c);
    var after := DirectAfter(direct, advs, key, c);
    CheckedOk(advs, key, c);
    AdvIndexIsFirst(advs, key, 0);
    var e := EntryOf(advs, key);
    if Decide(e, key, c).Some? {
      DecidedWaited(e, key, c, direct);
    }
    forall i | 0 <= i < |r| ensures Remembers(r[i], log) && Waited(r[i], after, c.now) {
      if i < |advs| {
        assert Remembers(advs[i], log) && Waited(advs[i], direct, t);
        if advs[i].key == key { DistinctKeys(advs, i, AdvIndex(advs, key, 0)); }
      } else {
        NewKeyUnsent(advs, log, key);
      }
    }
    forall k | 0 <= k < |log| ensures Known(r, log[k].key) {
      var i :| 0 <= i < |advs| && advs[i].key == log[k].key;
      assert r[i].key == log[k].key;
    }
  }

  lemma {:induction false} DistinctKeys(advs: seq<Adv>, i: nat, j: nat)
    requires AllOk(advs) && i < |advs| && j < |advs|
    ensures i == j || advs[i].key != advs[j].key
  {
  }

  lemma {:induction false} NewKeyUnsent(advs: seq<Adv>, log: seq<Sent>, key: Key)
    requires forall k :: 0 <= k < |log| ==> Known(advs, log[k].key)
    requires forall i :: 0 <= i < |advs| ==> advs[i].key != key
    ensures LastIdx(log, key) == -1
  {
    var k := LastIdx(log, key);
    assert k >= 0 ==> Known(advs, log[k].key);
  }

  // ----- so does sending one record

  /** The entry at `i` goes out at `now`. */
  function Sending(advs: seq<Adv>, log: seq<Sent>, direct: set<Key>, i: nat, now: int): (seq<Adv>, seq<Sent>)
    requires i < |advs|
  {
    (advs[i := Committed(advs[i], now)], log + [Sent(advs[i].key, advs[i].pendingRtt, now, advs[i].key in direct)])
  }

  lemma {:induction false} SendKeepsTable(advs: seq<Adv>, log: seq<Sent>, direct: set<Key>, i: nat, now: int)
    requires TableOk(advs, log, direct, now) && i < |advs| && advs[i].pending
    ensures var r := Sending(advs, log, direct, i, now); TableOk(r.0, r.1, direct, now)
  {
    hide AllOk, AdvOk, Waited, LastIdx;
    var r := Sending(advs, log, direct, i, now);
    CommitKeepsAll(advs, i, now);
    forall k | 0 <= k < |advs| ensures Remembers(r.0[k], r.1) && Waited(r.0[k], direct, now) {
      assert Remembers(advs[k], log) && Waited(advs[k], direct, now);
      LastIdxSnoc(log, r.1[|log|], advs[k].key);
      DistinctKeys(advs, i, k);
      CommittedWaits(advs[i], direct, now);
    }
    forall k | 0 <= k < |r.1| ensures Known(r.0, r.1[k].key) {
      if k < |log| {
        assert Known(advs, log[k].key);
        var j :| 0 <= j < |advs| && advs[j].key == log[k].key;
        assert r.0[j].key == r.1[k].key;
      } else {
        assert r.0[i].key == r.1[k].key;
      }
    }
  }

  lemma {:induction false} CommittedWaits(a: Adv, direct: set<Key>, now: int)
    ensures Waited(Committed(a, now), direct, now)
  {
  }

  lemma {:induction false} CommitKeepsAll(advs: seq<Adv>, i: nat, now: int)
    requires AllOk(advs) && i < |advs| && advs[i].pending
    ensures AllOk(advs[i := Committed(advs[i], now)])
  {
    CommittedOk(advs[i], now);
  }

  lemma {:induction false} SendKeepsLog(advs: seq<Adv>, log: seq<Sent>, direct: set<Key>, i: nat, now: int)
    requires TableOk(advs, log, direct, now) && LogOk(log, now) && i < |advs| && advs[i].pending
    ensures LogOk(Sending(advs, log, direct, i, now).1, now)
  {
    hide AllOk, LastIdx, Known, HeldSince;
    var a := advs[i];
    var r := Sending(advs, log, direct, i, now).1;
    assert AdvOk(a) && Remembers(a, log) && Waited(a, direct, now) by { EntryOk(advs, i); }
    forall j | 0 <= j < |r| && LastIdx(r[..j], r[j].key) < 0 ensures !Withdrawn(r[j]) {
      assert r[..j] == log[..j];
      if j == |log| { assert log[..j] == log; }
    }
    forall k, j | 0 <= k < j < |r| ensures HeldSince(r, k, j) {
      if j < |log| {
        assert HeldSince(log, k, j);
        HeldSinceGrows(log, r[|log|], k, j);
      } else {
        NewestHeld(log, r[|log|], a, direct, k);
      }
    }
  }

  lemma {:induction false} HeldSinceGrows(log: seq<Sent>, s: Sent, i: nat, j: nat)
    requires i < j < |log| && HeldSince(log, i, j)
    ensures HeldSince(log + [s], i, j)
  {
    var r := log + [s];
    if exists k :: i < k <= j && log[k].key == log[j].key && log[k].direct && !Withdrawn(log[k]) {
      var k :| i < k <= j && log[k].key == log[j].key && log[k].direct && !Withdrawn(log[k]);
      assert r[k] == log[k];
    }
  }

  /** The record just sent against every earlier withdrawal: either the destination's
      last record is that withdrawal or a later one, and the entry has waited; or it
      was a finite record, for which the claim held already. */
  lemma {:induction false} NewestHeld(log: seq<Sent>, s: Sent, a: Adv, direct: set<Key>, i: nat)
    requires LogOk(log, s.at) && i < |log|
    requires a.pending && Remembers(a, log) && Waited(a, direct, s.at)
    requires s == Sent(a.key, a.pendingRtt, s.at, a.key in direct)
    ensures HeldSince(log + [s], i, |log|)
  {
    hide LastIdx, HeldSince;
    var r := log + [s];
    var m := LastIdx(log, s.key);
    LastIdxIsLast(log, s.key);
    if log[i].key == s.key && Withdrawn(log[i]) && !Withdrawn(s) && s.at - log[i].at < 90 {
      assert m >= i && log[i].at <= log[m].at;
      if Withdrawn(log[m]) {
        assert r[|log|].direct;
      } else {
        assert HeldSince(log, i, m);
        HeldWitness(log, i, m);
        var k :| i < k <= m && log[k].key == log[m].key && log[k].direct && !Withdrawn(log[k]);
        assert r[k] == log[k];
      }
      HeldBy(r, i, |log|);
    } else {
      HeldTrivially(r, i, |log|);
    }
  }

  lemma {:induction false} HeldWitness(log: seq<Sent>, i: nat, j: nat)
    requires i < j < |log| && HeldSince(log, i, j)
    requires log[i].key == log[j].key && Withdrawn(log[i]) && !Withdrawn(log[j]) && log[j].at - log[i].at < 90
    ensures exists k :: i < k <= j && log[k].key == log[j].key && log[k].direct && !Withdrawn(log[k])
  {
  }

  lemma {:induction false} HeldBy(log: seq<Sent>, i: nat, j: nat)
    requires i < j < |log| && exists k :: i < k <= j && log[k].key == log[j].key && log[k].direct && !Withdrawn(log[k])
    ensures HeldSince(log, i, j)
  {
  }

  lemma {:induction false} HeldTrivially(log: seq<Sent>, i: nat, j: nat)
    requires i < j < |log|
    requires !(log[i].key == log[j].key && Withdrawn(log[i]) && !Withdrawn(log[j]) && log[j].at - log[i].at < 90)
    ensures HeldSince(log, i, j)
  {
  }

  // ----- a drain is a sequence of single sends

  /** Sending the queued entries before `n`, one by one. */
  function SentUpTo(advs: seq<Adv>, log: seq<Sent>, direct: set<Key>, n: nat, now: int): (r: (seq<Adv>, seq<Sent>))
    requires n <= |advs|
    ensures r.0 == Emitted(advs, n, now)
  {
    if n == 0 then (advs, log)
    else
      var b := SentUpTo(advs, log, direct, n - 1, now);
      if advs[n - 1].pending then Sending(b.0, b.1, direct, n - 1, now) else b
  }

  lemma {:induction false} SendsLogTheQueue(advs: seq<Adv>, log: seq<Sent>, direct: set<Key>, n: nat, now: int)
    requires n <= |advs|
    ensures SentUpTo(advs, log, direct, n, now).1 == log + Stamped(QueuedRecs(advs, 0, n), direct, now)
  {
    hide Emitted;
    if n > 0 {
      SendsLogTheQueue(advs, log, direct, n - 1, now);
      QueuedSplit(advs, 0, n - 1, n);
      var b := SentUpTo(advs, log, direct, n - 1, now);
      assert b.0[n - 1] == advs[n - 1] by { EmittedAt(advs, n - 1, n - 1, now); }
      var rs := QueuedRecs(advs, 0, n - 1);
      assert QueuedRecs(advs, n - 1, n) == if advs[n - 1].pending then [RecOf(advs[n - 1])] else [];
      assert KeyOf(RecOf(advs[n - 1])) == advs[n - 1].key;
      StampedSnoc(rs, RecOf(advs[n - 1]), direct, now);
      assert rs + [] == rs;
    }
  }

  lemma {:induction false} EmittedAt(advs: seq<Adv>, n: nat, i: nat, now: int)
    requires n <= i < |advs|
    ensures Emitted(advs, n, now)[i] == advs[i]
  {
  }

  lemma {:induction false} StampedSnoc(rs: seq<Rec>, r: Rec, direct: set<Key>, now: int)
    ensures Stamped(rs + [r], direct, now) ==
            Stamped(rs, direct, now) + [Sent(KeyOf(r), r.cost, now, KeyOf(r) in direct)]
  {
  }

  lemma {:induction false} SendsKeep(advs: seq<Adv>, log: seq<Sent>, direct: set<Key>, n: nat, now: int)
    requires TableOk(advs, log, direct, now) && LogOk(log, now) && n <= |advs|
    ensures var r := SentUpTo(advs, log, direct, n, now); TableOk(r.0, r.1, direct, now) && LogOk(r.1, now)
  {
    hide TableOk, LogOk, Sending, Emitted;
    if n > 0 {
      SendsKeep(advs, log, direct, n - 1, now);
      var b := SentUpTo(advs, log, direct, n - 1, now);
      EmittedAt(advs, n - 1, n - 1, now);
      if advs[n - 1].pending {
        SendKeepsTable(b.0, b.1, direct, n - 1, now);
        SendKeepsLog(b.0, b.1, direct, n - 1, now);
      }
    }
  }

  lemma {:induction false} DrainKeepsAccount(a: Account, closed: bool, pcf: bool, now: int, t: int)
    requires AccountOk(a, t) && t <= now && now > 0
    ensures AccountOk(AfterDrain(a, closed, pcf, now), now)
  {
    hide DrainOnce, Reached, TableOk, LogOk, QueueOk, Flatten;
    LaterAccountOk(a, t, now);
    QueueIsOk(a.q);
    DrainConserves(a.q, closed, pcf, now);
    var n := Reached(a.q, closed, pcf, now);
    SendsLogTheQueue(a.q.advs, a.log, a.direct, n, now);
    SendsKeep(a.q.advs, a.log, a.direct, n, now);
  }

  lemma {:induction false} QueueIsOk(q: Queue)
    requires QueueOk(q)
    ensures AllOk(q.advs)
  {
  }

  lemma {:induction false} CheckKeepsAccount(a: Account, key: Key, c: Case, t: int)
    requires AccountOk(a, t) && t <= c.now && Sound(c) && KeyOk(key)
    ensures AccountOk(AfterCheck(a, key, c), c.now)
  {
    hide TableOk, LogOk, Checked, DirectAfter, Sound, KeyOk;
    LaterAccountOk(a, t, c.now);
    CheckKeepsTable(a.q.advs, a.log, a.direct, t, key, c);
    TableIsOk(Checked(a.q.advs, key, c), a.log, DirectAfter(a.direct, a.q.advs, key, c), c.now);
  }

  lemma {:induction false} TableIsOk(advs: seq<Adv>, log: seq<Sent>, direct: set<Key>, t: int)
    requires TableOk(advs, log, direct, t)
    ensures AllOk(advs)
  {
  }

  // ----- whole runs

  /** `Owe`: a '3-' is owed once the queue has drained. */
  datatype Op = Check(key: Key, c: Case) | Owe | Drain(closed: bool, pcf: bool, now: int)

  function After(a: Account, op: Op): Account
    requires op.Drain? ==> AllOk(a.q.advs)
  {
    match op
    case Check(key, c) => AfterCheck(a, key, c)
    case Owe => a.(q := a.q.(eobPending := true))
    case Drain(closed, pcf, now) => AfterDrain(a, closed, pcf, now)
  }

  function Clock(op: Op, t: int): int { match op case Check(_, c) => c.now case Owe => t case Drain(_, _, now) => now }

  /** The operation can come at time `t` or later. */
  predicate CanFollow(op: Op, t: int)
  {
    Clock(op, t) >= t && (op.Check? ==> Sound(op.c) && KeyOk(op.key))
  }

  predicate Timely(ops: seq<Op>, t: int)
    decreases |ops|
  {
    ops == [] || (CanFollow(ops[0], t) && Timely(ops[1..], Clock(ops[0], t)))
  }

  function EndTime(ops: seq<Op>, t: int): int
    decreases |ops|
  {
    if ops == [] then t else EndTime(ops[1..], Clock(ops[0], t))
  }

  lemma {:induction false} OpKeepsAccount(a: Account, op: Op, t: int)
    requires AccountOk(a, t) && CanFollow(op, t) && t > 0
    ensures AccountOk(After(a, op), Clock(op, t))
  {
    hide TableOk, LogOk, AfterCheck, AfterDrain, AllOk, Sound, KeyOk;
    match op {
      case Check(key, c) => CheckKeepsAccount(a, key, c, t);
      case Owe =>
      case Drain(closed, pcf, now) => DrainKeepsAccount(a, closed, pcf, now, t);
    }
  }

  /** The account after a run, which stays in order. */
  function Ran(a: Account, ops: seq<Op>, t: int): Account
    requires AccountOk(a, t) && t > 0 && Timely(ops, t)
    decreases |ops|
  {
    if ops == [] then a
    else
      OpKeepsAccount(a, ops[0], t);
      Ran(After(a, ops[0]), ops[1..], Clock(ops[0], t))
  }

  lemma {:induction false} RunKeepsAccount(a: Account, ops: seq<Op>, t: int)
    requires AccountOk(a, t) && t > 0 && Timely(ops, t)
    ensures AccountOk(Ran(a, ops, t), EndTime(ops, t))
    decreases |ops|
  {
    hide AccountOk, AllOk;
    if ops != [] {
      OpKeepsAccount(a, ops[0], t);
      AccountTable(a, t);
      RunKeepsAccount(After(a, ops[0]), ops[1..], Clock(ops[0], t));
    }
  }

  /** Over any run of checks and drains from an empty table, whatever the costs, the
      sources and the times between calls: no withdrawal goes out for a destination
      the peer was not sent a finite cost for before, and no finite record follows a
      withdrawal of its destination within ninety seconds unless a direct
      neighbour's record for it went out in between or is the record itself. */
  lemma {:induction false} RecordsKeepTheirWord(ops: seq<Op>, t: int)
    requires t > 0 && Timely(ops, t) && AccountOk(EMPTY_ACCOUNT, t)
    ensures HeardBefore(Ran(EMPTY_ACCOUNT, ops, t).log) && HeldDownRecords(Ran(EMPTY_ACCOUNT, ops, t).log)
  {
    hide TableOk, QueueOk, Ran;
    RunKeepsAccount(EMPTY_ACCOUNT, ops, t);
    FirstRecordIsFinite(Ran(EMPTY_ACCOUNT, ops, t).log, EndTime(ops, t));
  }

  lemma {:induction false} FirstRecordIsFinite(log: seq<Sent>, t: int)
    requires LogOk(log, t)
    ensures HeardBefore(log)
  {
    hide LastIdx, HeldDownRecords;
    forall j | 0 <= j < |log| && Withdrawn(log[j])
      ensures exists i :: 0 <= i < j && log[i].key == log[j].key && !Withdrawn(log[i])
    {
      FiniteBefore(log, t, j, j);
    }
  }

  lemma {:induction false} FiniteBefore(log: seq<Sent>, t: int, j: nat, m: nat)
    requires LogOk(log, t) && m <= j < |log| && Withdrawn(log[j])
    requires m < j ==> log[m].key == log[j].key && Withdrawn(log[m])
    ensures exists i :: 0 <= i < j && log[i].key == log[j].key && !Withdrawn(log[i])
    decreases m
  {
    hide LastIdx, HeldDownRecords;
    var i := LastIdx(log[..m], log[m].key);
    assert i >= 0;
    assert log[..m][i] == log[i];
    if Withdrawn(log[i]) { FiniteBefore(log, t, j, i); }
  }

  // ----- the token bucket

  /** What the bucket would hold at time `t`. */
  function Credit(q: Queue, pcf: bool, t: int): real
  {
    var size := BucketSize(pcf) as real;
    if q.lastRefill == 0 then size
    else
      var c := q.tokens + Gained(pcf, t - q.lastRefill);
      if c > size then size else c
  }

  predicate BucketOk(q: Queue, pcf: bool, t: int)
  {
    0 <= q.lastRefill <= t && 0.0 <= q.tokens <= BucketSize(pcf) as real
  }

  lemma {:induction false} CreditGrows(q: Queue, pcf: bool, t: int, u: int)
    requires BucketOk(q, pcf, t) && t <= u
    ensures Credit(q, pcf, u) <= Credit(q, pcf, t) + Gained(pcf, u - t)
    ensures Credit(q, pcf, u) <= BucketSize(pcf) as real
  {
    hide BucketSize, Gained;
    GainedAdds(pcf, t - q.lastRefill, u - t);
    GainedAdds(pcf, u - t, 0);
  }

  lemma {:induction false} CreditNotNegative(q: Queue, pcf: bool, t: int)
    requires BucketOk(q, pcf, t)
    ensures Credit(q, pcf, t) >= 0.0
  {
    GainedAdds(pcf, t - q.lastRefill, 0);
  }

  /** Every frame a drain sends is paid for from the credit. */
  lemma {:induction false} DrainSpendsCredit(q: Queue, closed: bool, pcf: bool, now: int)
    requires AllOk(q.advs) && BucketOk(q, pcf, now) && now > 0
    ensures var d := DrainOnce(q, closed, pcf, now);
            && BucketOk(d.q, pcf, now)
            && |d.frames| as real + Credit(d.q, pcf, now) <= Credit(q, pcf, now)
  {
    hide Frames, AllOk, AnyQueued, Emitted, Gained, BucketSize, FrameRecords, WithEob;
    GainedAdds(pcf, now - q.lastRefill, 0);
    GainedAdds(pcf, 0, 0);
    var d := DrainOnce(q, closed, pcf, now);
    if AnyQueued(q.advs) || q.eobPending {
      var tokens := Refilled(q, pcf, now);
      var f := if closed then (0, []) else Frames(q.advs, 0, tokens, FrameRecords(pcf));
      assert FrameRecords(pcf) >= 1 && BucketSize(pcf) >= 0 by { hide *; FamilySizes(pcf); }
      BoundFrames(q.advs, tokens, pcf);
      assert tokens == Credit(q, pcf, now);
      var stamp := if q.lastRefill == 0 || now > q.lastRefill then now else q.lastRefill;
      assert stamp == now;
      WithEobKeepsBucket(q.(advs := Emitted(q.advs, f.0, now), tokens := tokens - |f.1| as real, lastRefill := stamp),
        f.1, pcf, now);
    }
  }

  lemma {:induction false} FamilySizes(pcf: bool)
    ensures FrameRecords(pcf) >= 1 && BucketSize(pcf) >= 0
  {
  }

  lemma {:induction false} BoundFrames(advs: seq<Adv>, tokens: real, pcf: bool)
    requires AllOk(advs) && tokens >= 0.0
    ensures |Frames(advs, 0, tokens, FrameRecords(pcf)).1| as real <= tokens
  {
    FramesCarryTheQueue(advs, 0, tokens, FrameRecords(pcf));
  }

  lemma {:induction false} WithEobKeepsBucket(q: Queue, frames: seq<seq<Rec>>, pcf: bool, now: int)
    ensures var d := WithEob(q, frames, pcf, now);
            d.frames == frames && d.q.tokens == q.tokens && d.q.lastRefill == q.lastRefill && d.q.advs == q.advs
  {
  }

  predicate OfFamily(ops: seq<Op>, pcf: bool) { forall i :: 0 <= i < |ops| && ops[i].Drain? ==> ops[i].pcf == pcf }

  /** Record frames sent over a run. */
  function FramesSent(a: Account, ops: seq<Op>, t: int): nat
    requires AccountOk(a, t) && t > 0 && Timely(ops, t)
    decreases |ops|
  {
    if ops == [] then 0
    else
      OpKeepsAccount(a, ops[0], t);
      (if ops[0].Drain? then |DrainOnce(a.q, ops[0].closed, ops[0].pcf, ops[0].now).frames| else 0)
      + FramesSent(After(a, ops[0]), ops[1..], Clock(ops[0], t))
  }

  lemma {:induction false} RunSpendsCredit(a: Account, ops: seq<Op>, pcf: bool, t: int)
    requires AccountOk(a, t) && t > 0 && Timely(ops, t) && OfFamily(ops, pcf) && BucketOk(a.q, pcf, t)
    ensures var u := EndTime(ops, t);
            u >= t && FramesSent(a, ops, t) as real <= Credit(a.q, pcf, t) + Gained(pcf, u - t)
    decreases |ops|
  {
    hide AccountOk, After, Gained, Credit, BucketOk, BucketSize;
    GainedAdds(pcf, 0, 0);
    CreditNotNegative(a.q, pcf, t);
    if ops != [] {
      var op := ops[0];
      var now := Clock(op, t);
      OpKeepsAccount(a, op, t);
      OpSpendsCredit(a, op, pcf, t);
      RunSpendsCredit(After(a, op), ops[1..], pcf, now);
      GainedAdds(pcf, now - t, EndTime(ops, t) - now);
    }
  }

  lemma {:induction false} OpSpendsCredit(a: Account, op: Op, pcf: bool, t: int)
    requires AccountOk(a, t) && t > 0 && CanFollow(op, t) && (op.Drain? ==> op.pcf == pcf) && BucketOk(a.q, pcf, t)
    ensures op.Drain? ==> AllOk(a.q.advs)
    ensures var now := Clock(op, t); var b := After(a, op);
            var n := if op.Drain? then |DrainOnce(a.q, op.closed, op.pcf, op.now).frames| else 0;
            BucketOk(b.q, pcf, now) && n as real + Credit(b.q, pcf, now) <= Credit(a.q, pcf, t) + Gained(pcf, now - t)
  {
    hide AccountOk, DrainOnce, AllOk, Checked, Gained, BucketSize;
    AccountTable(a, t);
    var now := Clock(op, t);
    CreditGrows(a.q, pcf, t, now);
    if op.Drain? {
      DrainSpendsCredit(a.q, op.closed, pcf, now);
    }
  }

  lemma {:induction false} AccountTable(a: Account, t: int)
    requires AccountOk(a, t)
    ensures AllOk(a.q.advs)
  {
  }

  /** Token bucket: in any stretch of a run the record frames number at most the
      bucket size plus the stretch's length over the refill interval, from whatever
      state it starts, however often the drain is called and however long the queue
      stood idle. */
  lemma {:induction false} TokenBucketBound(a: Account, ops: seq<Op>, pcf: bool, t: int)
    requires AccountOk(a, t) && t > 0 && Timely(ops, t) && OfFamily(ops, pcf) && BucketOk(a.q, pcf, t)
    ensures FramesSent(a, ops, t) as real <=
            (if pcf then 2.0 else 4.0) + (EndTime(ops, t) - t) as real / (if pcf then 5.0 else 2.0)
  {
    RunSpendsCredit(a, ops, pcf, t);
    CreditGrows(a.q, pcf, t, t);
  }
}
