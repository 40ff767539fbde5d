/** The climb guard at work: for a destination heard of only through others, every
  * advertised table keeps the guard in the state its judged costs call for.
  */
module ClimbRuns {
  import opened Base
  import opened World
  import C = ClimbGuard
  import opened Advertise
  import opened Drain
  import opened AdvRuns

  /** The judgement a check of `key` makes, if it comes to one. */
  function JudgedNow(advs: seq<Adv>, key: Key, c: Case): Option<C.Judgement>
  {
    var e := EntryOf(advs, key);
    var expected := if Barred(c) then INFINITY else c.best.cost;
    if c.best.direct || (Barred(c) && !Told(e)) || HeldDown(e, c, expected) || (c.best.src < 0 && !Told(e)) then None
    else if e.None? && |advs| >= MAX_ADVERTISED then None
    else
      var a := if e.Some? then e.value else NewAdv(key);
      Some(C.Judgement(Bare(a.last, a.lastPen), Bare(expected, c.best.pen)))
  }

  /** The costs judged for `key` over a run. */
  function Judgements(a: Account, ops: seq<Op>, t: int, key: Key): seq<C.Judgement>
    requires AccountOk(a, t) && t > 0 && Timely(ops, t)
    decreases |ops|
  {
    if ops == [] then []
    else
      OpKeepsAccount(a, ops[0], t);
      JudgedBy(a.q.advs, ops[0], key) + Judgements(After(a, ops[0]), ops[1..], Clock(ops[0], t), key)
  }

  function JudgedBy(advs: seq<Adv>, op: Op, key: Key): seq<C.Judgement>
  {
    if op.Check? && op.key == key && JudgedNow(advs, key, op.c).Some? then [JudgedNow(advs, key, op.c).value] else []
  }

  /** No check of `key` finds its cheapest source to be a direct neighbour. */
  predicate Hearsay(ops: seq<Op>, key: Key)
  {
    forall i :: 0 <= i < |ops| && ops[i].Check? && ops[i].key == key ==> !ops[i].c.best.direct
  }

  predicate JudgedBefore(js: seq<C.Judgement>, cost: int)
  {
    exists k :: 0 <= k < |js| && C.Finite(js[k]) && js[k].expected == cost
  }

  /** The entry's guard has followed the judged costs; what the peer was told, or is
      about to be told, was judged; nothing finite waits while the guard is shut. */
  predicate Follows(e: Option<Adv>, js: seq<C.Judgement>)
  {
    && C.Genuine(js)
    && match e
       case None => js == []
       case Some(a) =>
         && a.guard == C.After(js)
         && (1 <= a.last < INFINITY ==> JudgedBefore(js, Bare(a.last, a.lastPen)))
         && (a.pending && a.pendingRtt < INFINITY ==>
              JudgedBefore(js, Bare(a.pendingRtt, a.pendingPen)) && !a.guard.looping)
  }

  lemma {:induction false} JudgedStays(js: seq<C.Judgement>, j: C.Judgement, cost: int)
    requires JudgedBefore(js, cost)
    ensures JudgedBefore(js + [j], cost)
  {
    var k :| 0 <= k < |js| && C.Finite(js[k]) && js[k].expected == cost;
    assert (js + [j])[k] == js[k];
  }

  lemma {:induction false} GenuineSnoc(js: seq<C.Judgement>, j: C.Judgement)
    requires C.Genuine(js) && 1 <= j.expected && (j.last == -1 || j.last >= INFINITY || JudgedBefore(js, j.last))
    ensures C.Genuine(js + [j]) && C.After(js + [j]) == C.Judge(C.After(js), j.last, j.expected).0
  {
    hide C.Judge, C.After;
    var r := js + [j];
    forall i | 0 <= i < |r|
      ensures 1 <= r[i].expected &&
              (r[i].last == -1 || r[i].last >= INFINITY ||
               exists k :: 0 <= k < i && C.Finite(r[k]) && r[k].expected == r[i].last)
    {
      if i < |js| && !(js[i].last == -1 || js[i].last >= INFINITY) {
        var k :| 0 <= k < i && C.Finite(js[k]) && js[k].expected == js[i].last;
        assert r[k] == js[k];
      } else if i == |js| && !(j.last == -1 || j.last >= INFINITY) {
        var k :| 0 <= k < |js| && C.Finite(js[k]) && js[k].expected == j.last;
        assert r[k] == js[k];
      }
    }
    AfterSnoc(js, j);
  }

  lemma {:induction false} AfterSnoc(js: seq<C.Judgement>, j: C.Judgement)
    ensures C.After(js + [j]) == C.Judge(C.After(js), j.last, j.expected).0
  {
    assert (js + [j])[..|js|] == js;
  }

  lemma {:induction false} JudgeOutcome(g: C.Guard, last: int, expected: int)
    ensures var j := C.Judge(g, last, expected);
            && (j.1 == C.Withdraw || j.1 == C.Suppress ==> expected < INFINITY)
            && (j.1 == C.Ok && expected < INFINITY ==> !j.0.looping)
  {
  }

  /** One judged entry follows the longer list of judgements. */
  lemma {:induction false} JudgedFollows(a: Adv, js: seq<C.Judgement>, c: Case, expected: int)
    requires AdvOk(a) && Sound(c) && Follows(Some(a), js) && !c.best.direct
    requires expected == INFINITY || (c.best.src >= 0 && expected == c.best.cost)
    ensures Follows(Some(Judged(a, expected, c)),
            js + [C.Judgement(Bare(a.last, a.lastPen), Bare(expected, c.best.pen))])
  {
    hide C.Judge, C.After, C.Genuine, Fires;
    var last, cost := Bare(a.last, a.lastPen), Bare(expected, c.best.pen);
    var j := C.Judgement(last, cost);
    GenuineSnoc(js, j);
    JudgeOutcome(a.guard, last, cost);
    if 1 <= a.last < INFINITY { JudgedStays(js, j, last); }
    if a.pending && a.pendingRtt < INFINITY { JudgedStays(js, j, Bare(a.pendingRtt, a.pendingPen)); }
    if cost < INFINITY {
      assert C.Finite((js + [j])[|js|]) && (js + [j])[|js|].expected == cost;
      assert JudgedBefore(js + [j], cost);
    }
  }

  lemma {:induction false} CheckFollows(advs: seq<Adv>, key: Key, c: Case, js: seq<C.Judgement>)
    requires AllOk(advs) && Sound(c) && KeyOk(key) && !c.best.direct && Follows(EntryOf(advs, key), js)
    ensures Follows(EntryOf(Checked(advs, key, c), key), js + JudgedBy(advs, Check(key, c), key))
  {
    hide AllOk, Judged, Follows, HeldDown, Told, Barred;
    var e := EntryOf(advs, key);
    var r := Checked(advs, key, c);
    CheckedOk(advs, key, c);
    AdvIndexIsFirst(advs, key, 0);
    var i := AdvIndex(advs, key, 0);
    assert js + [] == js;
    if e.Some? { EntryOk(advs, i); }
    if JudgedNow(advs, key, c).Some? {
      var expected := if Barred(c) then INFINITY else c.best.cost;
      var a := if e.Some? then e.value else NewAdv(key);
      if e.None? { NewFollows(key, js); }
      JudgedFollows(a, js, c, expected);
      EntryFound(r, key, i);
    } else if Decide(e, key, c).Some? && e.Some? {
      UnjudgedFollows(e.value, key, c, js);
      EntryFound(r, key, i);
    } else if e.None? {
      NothingToHold(c, if Barred(c) then INFINITY else c.best.cost);
    }
  }

  lemma {:induction false} NothingToHold(c: Case, expected: int)
    ensures !HeldDown(None, c, expected) && !Told(None)
  {
  }

  lemma {:induction false} NewFollows(key: Key, js: seq<C.Judgement>)
    requires Follows(None, js)
    ensures Follows(Some(NewAdv(key)), js)
  {
  }

  /** A check that judges nothing at most takes a queued record back. */
  lemma {:induction false} UnjudgedFollows(a: Adv, key: Key, c: Case, js: seq<C.Judgement>)
    requires Follows(Some(a), js) && Decide(Some(a), key, c).Some? && !c.best.direct
    requires var expected := if Barred(c) then INFINITY else c.best.cost;
             (Barred(c) && !Told(Some(a))) || HeldDown(Some(a), c, expected) || (c.best.src < 0 && !Told(Some(a)))
    ensures Follows(Decide(Some(a), key, c), js)
  {
    hide C.Genuine, C.After, JudgedBefore, Judged;
  }

  lemma {:induction false} DrainFollows(q: Queue, closed: bool, pcf: bool, now: int, key: Key, js: seq<C.Judgement>)
    requires AllOk(q.advs) && Follows(EntryOf(q.advs, key), js)
    ensures Follows(EntryOf(DrainOnce(q, closed, pcf, now).q.advs, key), js)
  {
    hide AllOk, DrainOnce, Reached, C.Genuine, C.After, JudgedBefore;
    DrainKeepsEntries(q, closed, pcf, now);
    var n := Reached(q, closed, pcf, now);
    var r := Emitted(q.advs, n, now);
    var i := AdvIndex(q.advs, key, 0);
    AdvIndexIsFirst(q.advs, key, 0);
    AdvIndexIsFirst(r, key, 0);
    if i < |q.advs| {
      EntryFound(r, key, i);
      EntryOk(q.advs, i);
    }
  }

  lemma {:induction false} OpFollows(a: Account, op: Op, t: int, key: Key, js: seq<C.Judgement>)
    requires AccountOk(a, t) && CanFollow(op, t) && t > 0
    requires op.Check? && op.key == key ==> !op.c.best.direct
    requires Follows(EntryOf(a.q.advs, key), js)
    ensures AllOk(a.q.advs) && Follows(EntryOf(After(a, op).q.advs, key), js + JudgedBy(a.q.advs, op, key))
  {
    hide AccountOk, AllOk, Follows, EntryOf, Checked, DrainOnce, JudgedNow, Sound, KeyOk;
    AccountTable(a, t);
    assert js + [] == js;
    match op {
      case Check(k, c) =>
        if k == key { CheckFollows(a.q.advs, key, c, js); } else { CheckElsewhere(a.q.advs, k, c, key); }
      case Owe =>
      case Drain(closed, pcf, now) => DrainFollows(a.q, closed, pcf, now, key, js);
    }
  }

  lemma {:induction false} RunFollows(a: Account, ops: seq<Op>, t: int, key: Key, js: seq<C.Judgement>)
    requires AccountOk(a, t) && t > 0 && Timely(ops, t) && Hearsay(ops, key) && Follows(EntryOf(a.q.advs, key), js)
    ensures Follows(EntryOf(Ran(a, ops, t).q.advs, key), js + Judgements(a, ops, t, key))
    decreases |ops|
  {
    hide AccountOk, Follows, EntryOf, JudgedBy, AllOk;
    if ops == [] {
      assert js + [] == js;
    } else {
      OpFollows(a, ops[0], t, key, js);
      OpKeepsAccount(a, ops[0], t);
      var b := After(a, ops[0]);
      var now := JudgedBy(a.q.advs, ops[0], key);
      RunFollows(b, ops[1..], Clock(ops[0], t), key, js + now);
      assert (js + now) + Judgements(b, ops[1..], Clock(ops[0], t), key) ==
        js + (now + Judgements(b, ops[1..], Clock(ops[0], t), key));
    }
  }

  /** Count-to-infinity containment in the tables themselves. After any run in which a
      destination is only heard of through others, the floor its entry remembers is
      the cheapest finite cost ever judged for it, and as long as its latest judged
      costs keep the guard shut no finite cost for it waits to be sent. */
  lemma {:induction false} GuardGuardsTheTable(ops: seq<Op>, t: int, key: Key)
    requires t > 0 && Timely(ops, t) && Hearsay(ops, key) && AccountOk(EMPTY_ACCOUNT, t)
    ensures var js := Judgements(EMPTY_ACCOUNT, ops, t, key); var e := EntryOf(Ran(EMPTY_ACCOUNT, ops, t).q.advs, key);
            && C.Genuine(js)
            && (e.Some? ==> e.value.guard.floor == C.Cheapest(js))
            && (e.Some? && C.After(js).looping ==> !(e.value.pending && e.value.pendingRtt < INFINITY))
            && (e.None? ==> js == [])
  {
    hide AccountOk, C.After, C.Genuine, Judgements, Ran;
    var js := Judgements(EMPTY_ACCOUNT, ops, t, key);
    NoneFollows();
    RunFollows(EMPTY_ACCOUNT, ops, t, key, []);
    assert [] + js == js;
    C.FloorIsCheapest(js);
  }

  lemma {:induction false} NoneFollows()
    ensures Follows(None, [])
  {
  }
}
