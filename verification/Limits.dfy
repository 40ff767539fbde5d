/** Where three plausible claims stop being true: short runs that break them. */
module Limits {
  import opened Base
  import opened World
  import opened ClimbGuard
  import opened Advertise
  import opened Drain
  import opened AdvRuns
  import opened Peers
  import opened PeerRuns

  // ----- the hold-down does not reach past a direct neighbour's record

  predicate SoonAfter(s: Sent, r: Sent)
  {
    s.key == r.key && Withdrawn(s) && !Withdrawn(r) && r.at - s.at < 90
  }

  /** The claim without its exception: any finite record within ninety seconds of a
      withdrawal is a direct neighbour's. */
  predicate StrictlyHeldDown(log: seq<Sent>)
  {
    forall i, j :: 0 <= i < j < |log| && SoonAfter(log[i], log[j]) ==> log[j].direct
  }

  const DEST := Key("N0CALL", 0, 0)

  function Seen(cost: int, direct: bool, now: int): Case
  {
    Case(Best(cost, 0, direct, 0), false, false, false, false, now)
  }

  function Lost(now: int): Case { Case(NO_SOURCE, false, false, false, false, now) }

  /** A check and the drain after it. */
  function Pair(pcf: bool, c: Case): seq<Op> { [Check(DEST, c), Op.Drain(false, pcf, c.now)] }

  /** The account after a check and the drain after it. */
  function Round(a: Account, pcf: bool, c: Case): Account
    requires AllOk(AfterCheck(a, DEST, c).q.advs)
  {
    AfterDrain(AfterCheck(a, DEST, c), false, pcf, c.now)
  }

  /** An account with one entry and no mark owed. */
  function Holding(e: Adv, tokens: real, at: int, log: seq<Sent>, direct: set<Key>): Account
  {
    Account(Queue([e], tokens, at, false, 0), log, direct)
  }

  /** The entry once it carries nothing to send. */
  function Quiet(last: int, at: int): Adv { Adv(DEST, last, at, 0, false, last, 0, FRESH) }

  predicate Starting(a: Account, tokens: real, pcf: bool, now: int)
  {
    tokens == Refilled(a.q, pcf, now) && !a.q.eobPending && a.q.eobSince == 0 && 0 <= a.q.lastRefill <= now && now > 0
  }

  /** A check that leaves the only entry queued, and a drain with a token for it. */
  lemma {:induction false} RoundSends(a: Account, b: Adv, tokens: real, pcf: bool, c: Case)
    requires Checked(a.q.advs, DEST, c) == [b] && AdvOk(b) && b.pending && b.key == DEST
    requires Starting(a, tokens, pcf, c.now) && tokens >= 1.0
    ensures AllOk(AfterCheck(a, DEST, c).q.advs)
    ensures var direct := AfterCheck(a, DEST, c).direct;
            Round(a, pcf, c) == Holding(Committed(b, c.now), tokens - 1.0, c.now,
                                        a.log + [Sent(DEST, b.pendingRtt, c.now, DEST in direct)], direct)
  {
    hide Checked, Decide, AdvOk, RecLen, FrameEnd, Frames, EntryOf, Refilled, DirectAfter;
    var q := AfterCheck(a, DEST, c).q;
    assert AllOk(q.advs);
    SameBucket(q, a.q, pcf, c.now);
    var max := FrameRecords(pcf);
    RecordFits(b);
    FrameEndStep(q.advs, 0, 1, 0, max);
    FrameIsFull(q.advs, 1, 1 + RecLen(b), 1, max);
    FrameIsFull(q.advs, 1, 1, 0, max);
    assert QueuedRecs(q.advs, 0, 1) == [RecOf(b)] + QueuedRecs(q.advs, 1, 1);
    FramesStep(q.advs, 0, tokens, max);
    FramesStep(q.advs, 1, tokens - 1.0, max);
    assert FrameEnd(q.advs, 0, 1, 0, max) == 1 && QueuedRecs(q.advs, 0, 1) == [RecOf(b)];
    assert Frames(q.advs, 1, tokens - 1.0, max) == (1, []);
    assert [[RecOf(b)]] + [] == [[RecOf(b)]];
    assert Frames(q.advs, 0, tokens, max) == (1, [[RecOf(b)]]);
    assert Flatten([[RecOf(b)]]) == [RecOf(b)] + Flatten([]);
    assert AnyQueued(q.advs) by { assert q.advs[0].pending; }
    assert Emitted(q.advs, 1, c.now) == [Committed(b, c.now)];
  }

  lemma {:induction false} SameBucket(q: Queue, r: Queue, pcf: bool, now: int)
    requires q.tokens == r.tokens && q.lastRefill == r.lastRefill
    ensures Refilled(q, pcf, now) == Refilled(r, pcf, now)
  {
  }

  /** The same with a dry bucket: the entry stays queued. */
  lemma {:induction false} RoundDry(a: Account, b: Adv, tokens: real, pcf: bool, c: Case)
    requires Checked(a.q.advs, DEST, c) == [b] && AdvOk(b) && b.pending && b.key == DEST
    requires Starting(a, tokens, pcf, c.now) && tokens < 1.0
    ensures AllOk(AfterCheck(a, DEST, c).q.advs)
    ensures Round(a, pcf, c) == Holding(b, tokens, c.now, a.log, AfterCheck(a, DEST, c).direct)
  {
    hide Checked, Decide, AdvOk, FrameEnd, Frames, EntryOf, Refilled, DirectAfter;
    var q := AfterCheck(a, DEST, c).q;
    assert AllOk(q.advs);
    SameBucket(q, a.q, pcf, c.now);
    FramesStep(q.advs, 0, tokens, FrameRecords(pcf));
    assert AnyQueued(q.advs) by { assert q.advs[0].pending; }
    assert Emitted(q.advs, 0, c.now) == [b];
  }

  lemma {:induction false} PairTimely(pcf: bool, c: Case, rest: seq<Op>, t: int)
    requires Sound(c) && c.now >= t && Timely(rest, c.now)
    ensures Timely(Pair(pcf, c) + rest, t)
  {
    var ops := Pair(pcf, c) + rest;
    assert ops[1..][1..] == rest && ops[1..][0] == Op.Drain(false, pcf, c.now);
  }

  lemma {:induction false} PairRuns(a: Account, pcf: bool, c: Case, rest: seq<Op>, t: int)
    requires AccountOk(a, t) && t > 0 && Sound(c) && c.now >= t && Timely(rest, c.now) && Timely(Pair(pcf, c) + rest, t)
    ensures AllOk(AfterCheck(a, DEST, c).q.advs)
    ensures AccountOk(Round(a, pcf, c), c.now) && Ran(a, Pair(pcf, c) + rest, t) == Ran(Round(a, pcf, c), rest, c.now)
  {
    hide TableOk, LogOk, QueueOk, AfterCheck, AfterDrain;
    var ops := Pair(pcf, c) + rest;
    OpKeepsAccount(a, ops[0], t);
    AccountTable(a, t);
    var b := AdvRuns.After(a, ops[0]);
    AccountTable(b, c.now);
    assert ops[1..][0] == Op.Drain(false, pcf, c.now) && ops[1..][1..] == rest;
    OpKeepsAccount(b, ops[1], c.now);
  }

  /** A run of four checks, a drain after each. */
  function Four(pcf: bool, c1: Case, c2: Case, c3: Case, c4: Case): seq<Op>
  {
    Pair(pcf, c1) + (Pair(pcf, c2) + (Pair(pcf, c3) + (Pair(pcf, c4) + [])))
  }

  lemma {:induction false} FourTimely(pcf: bool, c1: Case, c2: Case, c3: Case, c4: Case)
    requires Sound(c1) && Sound(c2) && Sound(c3) && Sound(c4) && 0 < c1.now <= c2.now <= c3.now <= c4.now
    ensures Timely(Four(pcf, c1, c2, c3, c4), c1.now)
    ensures Timely(Pair(pcf, c2) + (Pair(pcf, c3) + (Pair(pcf, c4) + [])), c1.now)
    ensures Timely(Pair(pcf, c3) + (Pair(pcf, c4) + []), c2.now)
    ensures Timely(Pair(pcf, c4) + [], c3.now) && Timely([], c4.now)
  {
    hide Pair, Timely;
    NothingTimely(c4.now);
    PairTimely(pcf, c4, [], c3.now);
    PairTimely(pcf, c3, Pair(pcf, c4) + [], c2.now);
    PairTimely(pcf, c2, Pair(pcf, c3) + (Pair(pcf, c4) + []), c1.now);
    PairTimely(pcf, c1, Pair(pcf, c2) + (Pair(pcf, c3) + (Pair(pcf, c4) + [])), c1.now);
  }

  /** The run from an empty account, round by round. */
  lemma {:induction false} FourRuns(pcf: bool, c1: Case, c2: Case, c3: Case, c4: Case)
    requires Sound(c1) && Sound(c2) && Sound(c3) && Sound(c4) && 0 < c1.now <= c2.now <= c3.now <= c4.now
    ensures AccountOk(EMPTY_ACCOUNT, c1.now) && Timely(Four(pcf, c1, c2, c3, c4), c1.now)
    ensures AllOk(AfterCheck(EMPTY_ACCOUNT, DEST, c1).q.advs)
    ensures var a1 := Round(EMPTY_ACCOUNT, pcf, c1);
            && AllOk(AfterCheck(a1, DEST, c2).q.advs) && var a2 := Round(a1, pcf, c2);
            && AllOk(AfterCheck(a2, DEST, c3).q.advs) && var a3 := Round(a2, pcf, c3);
            && AllOk(AfterCheck(a3, DEST, c4).q.advs)
            && Ran(EMPTY_ACCOUNT, Four(pcf, c1, c2, c3, c4), c1.now) == Round(a3, pcf, c4)
  {
    hide AfterCheck, Round, Ran, AccountOk, Timely, Sound, Pair;
    EmptyAccountOk(c1.now);
    FourTimely(pcf, c1, c2, c3, c4);
    PairRuns(EMPTY_ACCOUNT, pcf, c1, Pair(pcf, c2) + (Pair(pcf, c3) + (Pair(pcf, c4) + [])), c1.now);
    var a1 := Round(EMPTY_ACCOUNT, pcf, c1);
    PairRuns(a1, pcf, c2, Pair(pcf, c3) + (Pair(pcf, c4) + []), c1.now);
    var a2 := Round(a1, pcf, c2);
    PairRuns(a2, pcf, c3, Pair(pcf, c4) + [], c2.now);
    var a3 := Round(a2, pcf, c3);
    PairRuns(a3, pcf, c4, [], c3.now);
    NothingRuns(Round(a3, pcf, c4), c4.now);
  }

  /** What the decision rule makes of the offers of the two runs. */
  lemma {:induction false} Decisions(at: int, now: int)
    requires 0 < at <= now
    ensures Checked([], DEST, Seen(10, true, now)) == [NewAdv(DEST).(pending := true, pendingRtt := 10)]
    ensures Checked([Quiet(10, at)], DEST, Lost(now)) == [Quiet(10, at).(pending := true, pendingRtt := INFINITY)]
    ensures Checked([Quiet(INFINITY, at)], DEST, Seen(10, true, now)) ==
            [Quiet(INFINITY, at).(pending := true, pendingRtt := 10)]
    ensures AdvOk(NewAdv(DEST).(pending := true, pendingRtt := 10))
    ensures AdvOk(Quiet(10, at).(pending := true, pendingRtt := INFINITY))
    ensures AdvOk(Quiet(INFINITY, at).(pending := true, pendingRtt := 10))
  {
  }

  lemma {:induction false} WhoIsDirect(a: Account, e: Adv, now: int)
    requires 0 < now && (a.q.advs == [] || a.q.advs == [e])
    requires e == Quiet(10, e.lastAt) || e == Quiet(INFINITY, e.lastAt)
    ensures a.q.advs == [] || e == Quiet(INFINITY, e.lastAt) ==> DEST in AfterCheck(a, DEST, Seen(10, true, now)).direct
    ensures a.q.advs == [Quiet(10, e.lastAt)] ==> DEST !in AfterCheck(a, DEST, Lost(now)).direct
  {
  }

  /** Up, and lost again: the withdrawal goes out while tokens last. */
  lemma {:induction false} UpAndLost(pcf: bool, t: int, u: int)
    requires 0 < t <= u && (t == u || u == t + 10)
    ensures var c1, c2 := Seen(10, true, t), Lost(u);
            && AllOk(AfterCheck(EMPTY_ACCOUNT, DEST, c1).q.advs)
            && var a1 := Round(EMPTY_ACCOUNT, pcf, c1);
            && AllOk(AfterCheck(a1, DEST, c2).q.advs)
            && var a2, full := Round(a1, pcf, c2), BucketSize(pcf) as real;
            && a2.log == [Sent(DEST, 10, t, true), Sent(DEST, INFINITY, u, false)]
            && a2 == Holding(Quiet(INFINITY, u), if t == u then full - 2.0 else full - 1.0, u, a2.log, a2.direct)
  {
    hide AfterCheck, Round, AdvOk, Checked;
    var full := BucketSize(pcf) as real;
    var e1, e2 :=
      NewAdv(DEST).(pending := true, pendingRtt := 10), Quiet(10, t).(pending := true, pendingRtt := INFINITY);
    Decisions(t, t);
    Decisions(t, u);
    RoundSends(EMPTY_ACCOUNT, e1, full, pcf, Seen(10, true, t));
    WhoIsDirect(EMPTY_ACCOUNT, Quiet(10, t), t);
    var a1 := Round(EMPTY_ACCOUNT, pcf, Seen(10, true, t));
    assert a1.q == Queue([Quiet(10, t)], full - 1.0, t, false, 0);
    RoundSends(a1, e2, if t == u then full - 1.0 else full, pcf, Lost(u));
    WhoIsDirect(a1, Quiet(10, t), u);
    var a2 := Round(a1, pcf, Lost(u));
    assert a2.log == [] + [Sent(DEST, 10, t, true)] + [Sent(DEST, INFINITY, u, false)];
  }

  /** Up, lost, up again as a neighbour, then only by hearsay: four records in
      thirty seconds. */
  const BRIEF_LOSS := Four(false, Seen(10, true, 1000), Lost(1010), Seen(10, true, 1020), Seen(20, false, 1030))

  /** The run of four: the last record is hearsay, twenty seconds after the
      withdrawal, and goes out. */
  lemma {:induction false} DirectRecordEndsHoldDown()
    ensures Timely(BRIEF_LOSS, 1000) && AccountOk(EMPTY_ACCOUNT, 1000)
    ensures !StrictlyHeldDown(Ran(EMPTY_ACCOUNT, BRIEF_LOSS, 1000).log)
  {
    hide AfterCheck, Round, Ran, AccountOk, Timely, AdvOk, Checked, Four;
    var c1, c2, c3, c4 := Seen(10, true, 1000), Lost(1010), Seen(10, true, 1020), Seen(20, false, 1030);
    FourRuns(false, c1, c2, c3, c4);
    UpAndLost(false, 1000, 1010);
    var a2 := Round(Round(EMPTY_ACCOUNT, false, c1), false, c2);
    Decisions(1010, 1020);
    RoundSends(a2, Quiet(INFINITY, 1010).(pending := true, pendingRtt := 10), 4.0, false, c3);
    WhoIsDirect(a2, Quiet(INFINITY, 1010), 1020);
    var a3 := Round(a2, false, c3);
    assert a3.q.advs == [Quiet(10, 1020)];
    Hearsay(a3, 1020);
    RoundSends(a3, Quiet(10, 1020).(pending := true, pendingRtt := 20, guard := Guard(-1, 1, false)), 4.0, false, c4);
    var log := Round(a3, false, c4).log;
    assert log[1] == Sent(DEST, INFINITY, 1010, false) && log[3] == Sent(DEST, 20, 1030, false);
    assert SoonAfter(log[1], log[3]);
  }

  /** A hearsay record follows a withdrawal too soon, with a direct neighbour's finite
      record of the destination between them. */
  predicate Bypassed(log: seq<Sent>, i: int, k: int, j: int)
    requires 0 <= i < k < j < |log|
  {
    SoonAfter(log[i], log[j]) && !log[j].direct && log[k].key == log[j].key && log[k].direct && !Withdrawn(log[k])
  }

  /** Over any run the claim fails exactly so: nothing else lets a hearsay record
      through. */
  lemma {:induction false} HeldDownUnlessBypassed(ops: seq<Op>, t: int)
    requires t > 0 && Timely(ops, t) && AccountOk(EMPTY_ACCOUNT, t)
    ensures var log := Ran(EMPTY_ACCOUNT, ops, t).log;
            StrictlyHeldDown(log) <==> !exists i, k, j :: 0 <= i < k < j < |log| && Bypassed(log, i, k, j)
  {
    hide Ran, HeldSince;
    RecordsKeepTheirWord(ops, t);
    var log := Ran(EMPTY_ACCOUNT, ops, t).log;
    if i, k, j :| 0 <= i < k < j < |log| && Bypassed(log, i, k, j) {
      assert SoonAfter(log[i], log[j]);
    }
    if i, j :| 0 <= i < j < |log| && SoonAfter(log[i], log[j]) && !log[j].direct {
      assert HeldSince(log, i, j);
      HeldWitness(log, i, j);
      var k :| i < k <= j && log[k].key == log[j].key && log[k].direct && !Withdrawn(log[k]);
      assert Bypassed(log, i, k, j);
    }
  }

  /** The guard behind it, before the check: a hearsay cost is held down exactly when
      the last record sent for its destination is a withdrawal less than ninety
      seconds old, and then no cost is left queued. */
  lemma {:induction false} HoldDownGuard(a: Account, t: int, key: Key, c: Case)
    requires AccountOk(a, t) && KeyOk(key) && Sound(c) && Offerable(c) && !c.best.direct
    ensures var k := LastIdx(a.log, key);
            var held := k >= 0 && Withdrawn(a.log[k]) && c.now - a.log[k].at < 90;
            && (HeldDown(EntryOf(a.q.advs, key), c, c.best.cost) <==> held)
            && (held ==> !RecordQueued(AfterCheck(a, key, c).q.advs, key))
  {
    hide AllOk, LogOk, QueueOk, Waited, LastIdx, Judged;
    var advs := a.q.advs;
    AdvIndexIsFirst(advs, key, 0);
    if EntryOf(advs, key).Some? {
      var i := AdvIndex(advs, key, 0);
      assert Remembers(advs[i], a.log);
      if HeldDown(EntryOf(advs, key), c, c.best.cost) {
        TableIsOk(advs, a.log, a.direct, t);
        CheckedOk(advs, key, c);
        EntryFound(Checked(advs, key, c), key, i);
      }
    } else {
      NewKeyUnsent(advs, a.log, key);
    }
  }

  lemma {:induction false} Hearsay(a: Account, at: int)
    requires a.q.advs == [Quiet(10, at)] && 0 < at
    ensures var b := Quiet(10, at).(pending := true, pendingRtt := 20, guard := Guard(-1, 1, false));
            && Checked(a.q.advs, DEST, Seen(20, false, at + 10)) == [b] && AdvOk(b)
            && DEST !in AfterCheck(a, DEST, Seen(20, false, at + 10)).direct
  {
  }

  // ----- a queued cost outlives its route

  /** Up, lost and up again within a second, on a bucket of two tokens; lost for good
      five seconds later. */
  const DRY_BUCKET := Four(true, Seen(10, true, 1000), Lost(1000), Seen(10, true, 1000), Lost(1005))

  /** The third check finds the bucket dry, so its cost waits; the fourth finds no
      source, and the drain after it sends the cost all the same. */
  lemma {:induction false} CostSentWithoutRoute()
    ensures Timely(DRY_BUCKET, 1000) && AccountOk(EMPTY_ACCOUNT, 1000)
    ensures Ran(EMPTY_ACCOUNT, DRY_BUCKET, 1000).log ==
            [Sent(DEST, 10, 1000, true), Sent(DEST, INFINITY, 1000, false), Sent(DEST, 10, 1005, true)]
  {
    hide AfterCheck, Round, Ran, AccountOk, Timely, AdvOk, Checked, Four;
    var c1, c2, c3, c4 := Seen(10, true, 1000), Lost(1000), Seen(10, true, 1000), Lost(1005);
    FourRuns(true, c1, c2, c3, c4);
    UpAndLost(true, 1000, 1000);
    var a2 := Round(Round(EMPTY_ACCOUNT, true, c1), true, c2);
    var b := Quiet(INFINITY, 1000).(pending := true, pendingRtt := 10);
    Decisions(1000, 1000);
    RoundDry(a2, b, 0.0, true, c3);
    WhoIsDirect(a2, Quiet(INFINITY, 1000), 1000);
    var a3 := Round(a2, true, c3);
    StaysQueued(a3, b, 1005);
    RoundSends(a3, b, 1.0, true, c4);
    assert [Sent(DEST, 10, 1000, true), Sent(DEST, INFINITY, 1000, false)] + [Sent(DEST, 10, 1005, true)] ==
           [Sent(DEST, 10, 1000, true), Sent(DEST, INFINITY, 1000, false), Sent(DEST, 10, 1005, true)];
  }

  lemma {:induction false} StaysQueued(a: Account, b: Adv, now: int)
    requires a.q.advs == [b] && b.key == DEST && b.pending && b.last == INFINITY
    ensures Checked(a.q.advs, DEST, Lost(now)) == [b] && AfterCheck(a, DEST, Lost(now)).direct == a.direct
  {
  }

  lemma {:induction false} NothingTimely(t: int)
    ensures Timely([], t)
  {
  }

  lemma {:induction false} NothingRuns(a: Account, t: int)
    requires AccountOk(a, t) && t > 0 && Timely([], t)
    ensures Ran(a, [], t) == a
  {
  }

  // ----- a closed exchange is kept only on connected links

  const PCF_NODE := Config(true, true, Own("", 0, 0))

  /** With an empty table a drain moves only the mark's clock. */
  lemma {:induction false} EmptyDrain(cfg: Config, p: Peer, now: int)
    requires cfg.transit && p.account.q.advs == [] && p.account.q.eobPending
    ensures AllOk(p.account.q.advs)
    ensures var q, r := p.account.q, DrainPeer(cfg, p, now);
            var due := q.eobSince != 0 && now - q.eobSince >= RefillSeconds(p.Pcf()) * EOB_QUIET_REFILLS;
            && r.out == (if due then p.out + [Mark(now, true, p.Pcf())] else p.out)
            && r.quiesced == (p.quiesced || (due && cfg.quiesce && p.Pcf()))
            && r.account.q.advs == [] && r.account.q.eobPending == !due
            && r.account.q.eobSince == (if due then 0 else if q.eobSince == 0 then now else q.eobSince)
            && r.sentRoutes == p.sentRoutes && r.gotInit == p.gotInit && r.inferred == p.inferred
            && r.kaTerm == p.kaTerm && r.lastAdvert == p.lastAdvert && r.lastLt == p.lastLt
  {
    hide Refilled, DrainOnce, DrainPeer, WithEob, Frames;
    var closed, pcf, q := !Allowed(cfg, p), p.Pcf(), p.account.q;
    var tokens := Refilled(q, pcf, now);
    NothingFramed(tokens, pcf);
    BusyDrain(q, closed, pcf, now);
    var spent := Spent(q, [], 0, pcf, now);
    var d := WithEob(spent, [], pcf, now);
    assert spent.advs == [];
    MarkOfEmpty(spent, pcf, now);
    PeerAfterDrain(cfg, p, now, d);
    assert Sends([], now) == [] && p.out + [] == p.out;
  }

  lemma {:induction false} NothingFramed(tokens: real, pcf: bool)
    ensures AllOk([]) && Frames([], 0, tokens, FrameRecords(pcf)) == (0, [])
  {
    FramesStep([], 0, tokens, FrameRecords(pcf));
    FrameIsFull([], 0, 1, 0, FrameRecords(pcf));
  }

  lemma {:induction false} MarkOfEmpty(q: Queue, pcf: bool, now: int)
    requires q.advs == [] && q.eobPending
    ensures var d := WithEob(q, [], pcf, now);
            var due := q.eobSince != 0 && now - q.eobSince >= RefillSeconds(pcf) * EOB_QUIET_REFILLS;
            && d.frames == [] && d.eob == due && d.q.advs == [] && d.q.eobPending == !due
            && d.q.eobSince == (if due then 0 else if q.eobSince == 0 then now else q.eobSince)
  {
  }

  lemma {:induction false} FirstLinkTime(p: Peer, now: int)
    requires p.lastLt == 0
    ensures SendLinkTime(p, now) == p.(out := p.out + [LinkTimeSent(now)], lastLt := now)
  {
  }

  /** A '3+' taken from a link that is not connected is answered, but does not
      establish the session; a new handshake then forgets that the table was sent,
      and the first keepalive sends it again although the exchange is closed. The link
      layer hands over frames only from links in state 5 and above (L2Code.c:2199-2207),
      which is what flex_l2_connected asks for, so the run cannot happen: it shows that
      the silence rests on that test of another module. */
  lemma {:induction false} RequestsNeedTheLink()
    ensures var p1 := OnRequest(PCF_NODE, Started(1, 0), false, [], 2);
            var p2 := Step(PCF_NODE, p1, Rehandshake(3));
            var p3 := OnTimer(PCF_NODE, p2, false, [], [], 20);
            var p4 := OnKeepalive(PCF_NODE, p3, KA_LEN_PCF, '\r', true, false, [], 21);
            !QuietAfterMark(p4.out)
  {
    hide DrainPeer, SendLinkTime;
    var a := SendOwn(Started(1, 0).(out := Started(1, 0).out + [Asked(2)]), true, 2);
    var b := a.(account := AdvRuns.After(a.account, Owe));
    EmptyDrain(PCF_NODE, b, 2);
    var p1 := OnRequest(PCF_NODE, Started(1, 0), false, [], 2);
    assert p1 == DrainPeer(PCF_NODE, b, 2).(sentRoutes := true);
    var p2 := Step(PCF_NODE, p1, Rehandshake(3));
    EmptyDrain(PCF_NODE, p2, 20);
    var p3 := OnTimer(PCF_NODE, p2, false, [], [], 20);
    assert p3 == DrainPeer(PCF_NODE, p2, 20);
    var n := |p2.out|;
    assert p3.out == p2.out + [Mark(20, true, true)];
    var p4 := OnKeepalive(PCF_NODE, p3, KA_LEN_PCF, '\r', true, false, [], 21);
    var c := p3.(inferred := true, kaLen := KA_LEN_PCF, kaTerm := '\r');
    FirstLinkTime(c, 21);
    assert p4 == Introduce(PCF_NODE, SendLinkTime(c, 21), [], 21);
    assert p4.out == p3.out + [LinkTimeSent(21)] + [OwnRecord(21)] + [Mark(21, false, true)];
    assert Closes(p4.out[n]) && PeerRuns.Compact(p4.out[n + 2]);
  }
}
