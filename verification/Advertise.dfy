/** What one peer is told about one destination: the decision rule, and the table
  * of what each peer has been told, which doubles as the queue.
  */
module Advertise {
  import opened Base
  import opened World
  import opened ClimbGuard

  const HOLDDOWN := 90
  const THRESHOLD_PCT := 10
  const THRESHOLD_ABS := 1
  const MAX_ADVERTISED := 256

  /** `last` is -1 until a record for this destination has been sent. */
  datatype Adv = Adv(key: Key, last: int, lastAt: int, lastPen: int,
                     pending: bool, pendingRtt: int, pendingPen: int, guard: Guard)

  function NewAdv(key: Key): Adv { Adv(key, -1, 0, 0, false, 0, 0, FRESH) }

  /** What the decision rule looks at besides the entry. */
  datatype Case = Case(
    best: Best,        // cheapest cost we could offer, and its source
    ownOnly: bool,     // '=' on the peer's link
    echo: bool,        // the peer taught us this destination and it is no peer of ours
    directOnly: bool,  // only direct neighbours may be advertised
    force: bool,
    now: int)

  /** As flex_expected_rtt delivers it. */
  predicate Sound(c: Case)
  {
    && c.best.src >= -1
    && (c.best.src == -1 <==> c.best == NO_SOURCE)
    && (c.best.src >= 0 ==> 1 <= c.best.cost < INFINITY && 0 <= c.best.pen < c.best.cost)
  }

  predicate Told(e: Option<Adv>) { e.Some? && 0 <= e.value.last < INFINITY }

  /** The destination may not be offered to this peer at all. */
  predicate Barred(c: Case) { c.ownOnly || c.echo || (c.directOnly && !c.best.direct) }

  predicate HeldDown(e: Option<Adv>, c: Case, expected: int)
  {
    e.Some? && !c.best.direct && e.value.last >= INFINITY && expected < INFINITY && c.now - e.value.lastAt < HOLDDOWN
  }

  function Threshold(last: int): int
    requires last >= 0
  {
    var t := last * THRESHOLD_PCT / 100;
    if t < THRESHOLD_ABS then THRESHOLD_ABS else t
  }

  predicate Fires(last: int, expected: int, force: bool)
  {
    last < 0 || force || (if expected > last then expected - last else last - expected) >= Threshold(last)
  }

  /** Queue `expected`, or refresh what is queued already. */
  function Queued(a: Adv, expected: int, pen: int, force: bool): Adv
  {
    var p := if expected >= INFINITY then 0 else pen;
    if Fires(a.last, expected, force) then a.(pending := true, pendingRtt := expected, pendingPen := p)
    else if a.pending then a.(pendingRtt := expected, pendingPen := p)
    else a
  }

  /** A cost with the '+' penalty taken out again. */
  function Bare(cost: int, pen: int): int { if cost < 0 || cost >= INFINITY then cost else cost - pen }

  /** The climb guard, then the jitter threshold. */
  function Judged(a: Adv, expected: int, c: Case): Adv
  {
    if c.best.direct then Queued(a, expected, c.best.pen, c.force)
    else
      var j := Judge(a.guard, Bare(a.last, a.lastPen), Bare(expected, c.best.pen));
      var b := a.(guard := j.0);
      match j.1
      case Ok => Queued(b, expected, c.best.pen, c.force)
      case Withdraw => Queued(b, INFINITY, 0, c.force)
      case Suppress => if c.force then Queued(b, INFINITY, 0, true) else b.(pending := false)
  }

  /** flex_advertise_check for one entry: None leaves the table alone, otherwise
      the entry afterwards. */
  function Decide(e: Option<Adv>, key: Key, c: Case): Option<Adv>
  {
    var expected := if Barred(c) then INFINITY else c.best.cost;
    if Barred(c) && !Told(e) then
      (if c.ownOnly && e.Some? then Some(e.value.(pending := false)) else None)
    else if HeldDown(e, c, expected) then Some(e.value.(pending := false))
    else if c.best.src < 0 && !Told(e) then None
    else Some(Judged(if e.Some? then e.value else NewAdv(key), expected, c))
  }

  // ----- the table

  function AdvIndex(advs: seq<Adv>, key: Key, from: nat): (i: nat)
    requires from <= |advs|
    ensures from <= i <= |advs|
    ensures i < |advs| ==> advs[i].key == key
    decreases |advs| - from
  {
    if from == |advs| || advs[from].key == key then from else AdvIndex(advs, key, from + 1)
  }

  lemma {:induction false} AdvIndexIsFirst(advs: seq<Adv>, key: Key, from: nat)
    requires from <= |advs|
    ensures forall k :: from <= k < AdvIndex(advs, key, from) ==> advs[k].key != key
    decreases |advs| - from
  {
    if from < |advs| && advs[from].key != key { AdvIndexIsFirst(advs, key, from + 1); }
  }

  function EntryOf(advs: seq<Adv>, key: Key): Option<Adv>
  {
    var i := AdvIndex(advs, key, 0);
    if i < |advs| then Some(advs[i]) else None
  }

  function Checked(advs: seq<Adv>, key: Key, c: Case): seq<Adv>
  {
    var i := AdvIndex(advs, key, 0);
    match Decide(EntryOf(advs, key), key, c)
    case None => advs
    case Some(a) => if i < |advs| then advs[i := a] else if |advs| < MAX_ADVERTISED then advs + [a] else advs
  }

  // ----- what every entry satisfies

  /** Costs are in range; a withdrawal is queued, or the climb guard has moved, only
      for a destination the peer has been sent a record for. */
  predicate AdvOk(a: Adv)
  {
    && 0 <= a.key.lo <= 15 && 0 <= a.key.hi <= 15
    && (a.last == -1 || 1 <= a.last <= INFINITY)
    && (1 <= a.last < INFINITY ==> 0 <= a.lastPen < a.last)
    && (a.pending ==> 1 <= a.pendingRtt <= INFINITY)
    && (a.pending && a.pendingRtt < INFINITY ==> 0 <= a.pendingPen < a.pendingRtt)
    && (a.pending && a.pendingRtt == INFINITY ==> a.last != -1)
    && (a.guard.looping || a.guard.steps > 0 ==> a.last != -1)
    && a.guard.steps >= 0
  }

  predicate KeyOk(key: Key) { 0 <= key.lo <= 15 && 0 <= key.hi <= 15 }

  predicate AllOk(advs: seq<Adv>)
  {
    && |advs| <= MAX_ADVERTISED
    && (forall i :: 0 <= i < |advs| ==> AdvOk(advs[i]))
    && (forall i, j :: 0 <= i < j < |advs| ==> advs[i].key != advs[j].key)
  }

  lemma {:induction false} JudgedOk(a: Adv, expected: int, c: Case)
    requires AdvOk(a) && Sound(c)
    requires expected == INFINITY || (c.best.src >= 0 && expected == c.best.cost)
    requires expected == INFINITY ==> a.last != -1
    ensures AdvOk(Judged(a, expected, c)) && Judged(a, expected, c).key == a.key
    ensures Judged(a, expected, c).last == a.last && Judged(a, expected, c).lastAt == a.lastAt
  {
    if !c.best.direct {
      JudgeOk(a.guard, Bare(a.last, a.lastPen), Bare(expected, c.best.pen));
    }
  }

  /** The guard can only withdraw or stay silent about what has been sent before. */
  lemma {:induction false} JudgeOk(g: Guard, last: int, expected: int)
    requires g.steps >= 0
    ensures var j := Judge(g, last, expected);
            && j.0.steps >= 0
            && (last < 0 && !g.looping && g.steps == 0 ==> j.1 == Ok && !j.0.looping && j.0.steps == 0)
            && (j.1 != Ok || j.0.looping || j.0.steps > 0 ==> last >= 0 || g.looping || g.steps > 0)
  {
    hide Inflated;
  }

  lemma {:induction false} DecideOk(e: Option<Adv>, key: Key, c: Case)
    requires Sound(c) && KeyOk(key) && (e.Some? ==> AdvOk(e.value) && e.value.key == key)
    ensures Decide(e, key, c).Some? ==>
              var a := Decide(e, key, c).value;
              && AdvOk(a) && a.key == key
              && a.last == (if e.Some? then e.value.last else -1)
              && (e.Some? ==> a.lastAt == e.value.lastAt)
  {
    hide Judged, Queued;
    var expected := if Barred(c) then INFINITY else c.best.cost;
    var a := if e.Some? then e.value else NewAdv(key);
    if !(Barred(c) && !Told(e)) && !HeldDown(e, c, expected) && !(c.best.src < 0 && !Told(e)) {
      JudgedOk(a, expected, c);
    }
  }

  lemma {:induction false} CheckedOk(advs: seq<Adv>, key: Key, c: Case)
    requires AllOk(advs) && Sound(c) && KeyOk(key)
    ensures AllOk(Checked(advs, key, c))
    ensures |advs| <= |Checked(advs, key, c)| <= |advs| + 1
    ensures forall i :: 0 <= i < |advs| && advs[i].key != key ==> Checked(advs, key, c)[i] == advs[i]
    ensures forall i :: 0 <= i < |advs| ==>
              var b := Checked(advs, key, c)[i];
              b.key == advs[i].key && b.last == advs[i].last && b.lastAt == advs[i].lastAt
    ensures |Checked(advs, key, c)| > |advs| ==>
            Checked(advs, key, c)[|advs|].last == -1 && Checked(advs, key, c)[|advs|].key == key
  {
    hide Decide;
    AdvIndexIsFirst(advs, key, 0);
    DecideOk(EntryOf(advs, key), key, c);
  }

  lemma {:induction false} EntryFound(advs: seq<Adv>, key: Key, i: nat)
    requires AllOk(advs) && i < |advs| && advs[i].key == key
    ensures EntryOf(advs, key) == Some(advs[i])
  {
    hide AdvOk;
    AdvIndexIsFirst(advs, key, 0);
  }

  lemma {:induction false} EntryIndex(advs: seq<Adv>, key: Key) returns (i: nat)
    requires EntryOf(advs, key).Some?
    ensures i < |advs| && advs[i].key == key && EntryOf(advs, key) == Some(advs[i])
  {
    i := AdvIndex(advs, key, 0);
  }

  /** A decision about another destination leaves an entry as it is. */
  lemma {:induction false} CheckElsewhere(advs: seq<Adv>, key: Key, c: Case, other: Key)
    requires AllOk(advs) && Sound(c) && KeyOk(key) && other != key
    ensures EntryOf(Checked(advs, key, c), other) == EntryOf(advs, other)
  {
    hide Decide, Sound, KeyOk, AdvOk;
    CheckedOk(advs, key, c);
    AdvIndexIsFirst(advs, other, 0);
    var r := Checked(advs, key, c);
    AdvIndexIsFirst(r, other, 0);
    if EntryOf(advs, other).Some? {
      EntryFound(r, other, AdvIndex(advs, other, 0));
    }
  }

  // ----- what the rule queues, seen from outside

  /** A destination that may not be offered to the neighbour never gets a finite cost
      queued or refreshed: what is queued for it afterwards is a withdrawal, or what
      was queued before and left alone. */
  lemma {:induction false} BarredQueuesNoCost(e: Option<Adv>, key: Key, c: Case)
    requires Sound(c) && Barred(c) && (e.Some? ==> AdvOk(e.value) && e.value.key == key)
    ensures var r := Decide(e, key, c);
            r.Some? ==> !(r.value.pending && r.value.pendingRtt < INFINITY) && e.Some? && r.value.last == e.value.last
    ensures !Told(e) ==> Decide(e, key, c).None? || !Decide(e, key, c).value.pending
  {
  }

  predicate RecordQueued(advs: seq<Adv>, key: Key)
  {
    EntryOf(advs, key).Some? && EntryOf(advs, key).value.pending
  }

  /** The destination has a route this peer may be told of. */
  predicate Offerable(c: Case) { c.best.src >= 0 && !Barred(c) }

  /** The climb guard's word on a cost; a direct neighbour's is not judged. */
  function VerdictOn(a: Adv, c: Case): Verdict
  {
    if c.best.direct then Ok else Judge(a.guard, Bare(a.last, a.lastPen), Bare(c.best.cost, c.best.pen)).1
  }

  lemma {:induction false} ForcedDecision(e: Option<Adv>, key: Key, c: Case)
    requires Sound(c) && c.force && (e.Some? ==> AdvOk(e.value) && e.value.key == key)
    ensures var r := Decide(e, key, c); var a := if e.Some? then e.value else NewAdv(key);
            if Told(e) || (Offerable(c) && !HeldDown(e, c, c.best.cost)) then
              && r.Some? && r.value.pending
              && r.value.pendingRtt == if Offerable(c) && VerdictOn(a, c) == Ok then c.best.cost else INFINITY
            else
              (r.Some? ==> e.Some? && !r.value.pending) && (r.Some? <==> e.Some? && (c.ownOnly || Offerable(c)))
  {
  }

  /** A forced check queues a record of its destination exactly when the peer was told
      of it, or it may be offered, is not held down, and has an entry or finds room
      for one; a destination that is neither keeps what was queued, off '=' links.
      The record carries the cost unless the guard distrusts it. */
  lemma {:induction false} ForcedIsQueued(advs: seq<Adv>, key: Key, c: Case)
    requires AllOk(advs) && KeyOk(key) && Sound(c) && c.force
    ensures var e, r := EntryOf(advs, key), Checked(advs, key, c);
            var a := if e.Some? then e.value else NewAdv(key);
            && (RecordQueued(r, key) <==>
                  || Told(e)
                  || (if Offerable(c) then !HeldDown(e, c, c.best.cost) && (e.Some? || |advs| < MAX_ADVERTISED)
                      else RecordQueued(advs, key) && !c.ownOnly))
            && (RecordQueued(r, key) && (Told(e) || Offerable(c)) ==>
                  EntryOf(r, key).value.pendingRtt ==
                    if Offerable(c) && VerdictOn(a, c) == Ok then c.best.cost else INFINITY)
  {
    hide Decide, AdvOk, Sound, HeldDown, VerdictOn, Barred;
    var r := Checked(advs, key, c);
    AdvIndexIsFirst(advs, key, 0);
    var i := AdvIndex(advs, key, 0);
    if i < |advs| { assert AdvOk(advs[i]); }
    ForcedDecision(EntryOf(advs, key), key, c);
    CheckedOk(advs, key, c);
    if i < |r| && r[i].key == key { EntryFound(r, key, i); } else { AdvIndexIsFirst(r, key, 0); }
  }

  /** The dead band, for a destination the neighbour was told a finite cost for: what
      the climb guard makes of the new cost, the cost itself or a withdrawal, is
      queued exactly when it is a tick and a tenth away from what was told, or
      something was queued already, which it then replaces. A cost the guard
      suppresses leaves nothing queued. */
  lemma {:induction false} DeadBand(a: Adv, key: Key, c: Case)
    requires AdvOk(a) && a.key == key && Told(Some(a)) && Sound(c) && !c.force && Offerable(c)
    ensures Decide(Some(a), key, c).Some?
    ensures var b, verdict := Decide(Some(a), key, c).value, VerdictOn(a, c);
            var cost := if verdict == Withdraw then INFINITY else c.best.cost;
            var moved := if cost > a.last then cost - a.last else a.last - cost;
            && (b.pending <==> verdict != Suppress && (a.pending || (moved >= 1 && 10 * moved > a.last - 10)))
            && (b.pending ==> b.pendingRtt == cost && b.pendingPen == (if verdict == Ok then c.best.pen else 0))
            && b.last == a.last && b.lastAt == a.lastAt
  {
    hide Judge, AdvOk;
    assert 0 <= a.last < INFINITY;
  }

  // ----- the decision rule for a destination nobody offers any more

  /** When no permitted source is left, a peer that was told a finite cost has the
      withdrawal queued exactly when something was queued already, the check is
      forced, or that cost is at most 54546: beyond that, the distance to the
      withdrawal value stays under a tenth of the cost. Nothing but the withdrawal
      is queued. */
  lemma {:induction false} LostSourceIsWithdrawn(a: Adv, key: Key, c: Case)
    requires AdvOk(a) && a.key == key && Told(Some(a))
    requires Sound(c) && c.best.src == -1
    ensures Decide(Some(a), key, c).Some?
    ensures var b := Decide(Some(a), key, c).value;
            && (b.pending <==> a.pending || c.force || a.last <= 54546)
            && (b.pending ==> b.pendingRtt == INFINITY)
            && b.last == a.last && b.lastAt == a.lastAt && b.key == key
  {
  }

  /** A destination the peer was never told about, or that has been withdrawn from
      it, is left alone when its sources disappear; only on a '=' link is what was
      queued for it dropped. */
  lemma {:induction false} UntoldIsLeftAlone(e: Option<Adv>, key: Key, c: Case)
    requires Sound(c) && c.best.src == -1 && !Told(e)
    ensures Decide(e, key, c) == if c.ownOnly && e.Some? then Some(e.value.(pending := false)) else None
  {
  }

  predicate CostQueued(advs: seq<Adv>, key: Key)
  {
    RecordQueued(advs, key) && EntryOf(advs, key).value.pendingRtt < INFINITY
  }

  /** One decision about a destination with a cost queued, once nobody offers it to
      this peer any more or it may not be offered. */
  lemma {:induction false} DecideWithoutRoute(a: Adv, key: Key, c: Case)
    requires AdvOk(a) && a.key == key && a.pending && a.pendingRtt < INFINITY
    requires Sound(c) && (c.best.src == -1 || Barred(c))
    ensures var r := Decide(Some(a), key, c); var b := if r.Some? then r.value else a;
            b.pending && b.pendingRtt < INFINITY <==> !Told(Some(a)) && !c.ownOnly
  {
  }

  /** That a queued cost is dropped when its route goes is true of the code exactly
      for destinations the peer was told a finite cost for, and on '=' links. A cost
      queued for any other destination stays queued, and goes out although nobody
      offers the destination any more, or it may not be offered. */
  lemma {:induction false} QueuedCostOutlivesItsRoute(advs: seq<Adv>, key: Key, c: Case)
    requires AllOk(advs) && KeyOk(key) && CostQueued(advs, key)
    requires Sound(c) && (c.best.src == -1 || Barred(c))
    ensures CostQueued(Checked(advs, key, c), key) <==> !Told(EntryOf(advs, key)) && !c.ownOnly
  {
    hide Decide, AdvOk, Sound;
    var i := EntryIndex(advs, key);
    CheckedOk(advs, key, c);
    assert AdvOk(advs[i]);
    DecideWithoutRoute(advs[i], key, c);
    EntryFound(Checked(advs, key, c), key, i);
    AdvIndexIsFirst(advs, key, 0);
  }
}
