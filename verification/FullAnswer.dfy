/** What a '3+' is for: the answer mentions every destination the neighbour may be
  * told of. The one thing that leaves a destination out is a full table.
  */
module FullAnswer {
  import opened Base
  import opened World
  import opened Advertise
  import opened Drain
  import opened AdvRuns
  import opened Peers
  import opened Routing
  import opened Horizon
  import opened Ledger

  /** A record for the destination's present route: its cost, or the withdrawal of a
      cost the climb guard distrusts. */
  predicate Carries(b: Best, cost: int) { cost == b.cost || (cost == INFINITY && !b.direct) }

  predicate QueuedAs(advs: seq<Adv>, key: Key, b: Best)
  {
    RecordQueued(advs, key) && Carries(b, EntryOf(advs, key).value.pendingRtt)
  }

  /** A record of the history from `base` on. */
  predicate SentAs(log: seq<Sent>, base: nat, key: Key, b: Best)
  {
    exists i :: base <= i < |log| && log[i].key == key && Carries(b, log[i].cost)
  }

  /** A forced check of a destination that may be offered and is not held down. */
  predicate Wanted(c: Case, e: Option<Adv>)
  {
    c.force && Offerable(c) && !HeldDown(e, c, c.best.cost)
  }

  // ----- the forced walk

  /** What the rule remembers of the records sent is the same for both entries. */
  predicate SameMemory(e: Option<Adv>, f: Option<Adv>)
  {
    && (e.Some? ==> f.Some?)
    && (f.Some? ==> if e.Some? then f.value.last == e.value.last && f.value.lastAt == e.value.lastAt
                    else f.value.last == -1)
  }

  lemma {:induction false} SameHold(e: Option<Adv>, f: Option<Adv>, c: Case)
    requires SameMemory(e, f) && Wanted(c, e)
    ensures Wanted(c, f)
  {
  }

  lemma {:induction false} CheckRemembers(advs: seq<Adv>, key: Key, c: Case, other: Key)
    requires AllOk(advs) && Sound(c) && KeyOk(key)
    ensures SameMemory(EntryOf(advs, other), EntryOf(Checked(advs, key, c), other))
  {
    hide Decide, AdvOk;
    CheckedOk(advs, key, c);
    if other != key {
      CheckElsewhere(advs, key, c, other);
    } else {
      AdvIndexIsFirst(advs, key, 0);
      AdvIndexIsFirst(Checked(advs, key, c), key, 0);
      var i := AdvIndex(advs, key, 0);
      if i < |advs| { EntryFound(Checked(advs, key, c), key, i); }
    }
  }

  lemma {:induction false} CheckQueues(advs: seq<Adv>, key: Key, c: Case)
    requires AllOk(advs) && Sound(c) && KeyOk(key) && Wanted(c, EntryOf(advs, key))
    ensures var r := Checked(advs, key, c);
            if EntryOf(advs, key).Some? || |advs| < MAX_ADVERTISED then QueuedAs(r, key, c.best)
            else EntryOf(r, key).None? && r == advs
  {
    hide HeldDown, Sound, AdvOk, Barred, Decide;
    ForcedIsQueued(advs, key, c);
    CheckedOk(advs, key, c);
    AdvIndexIsFirst(advs, key, 0);
  }

  predicate MayBeTold(cfg: Config, p: Peer, key: Key)
  {
    AllOk(p.account.q.advs) && KeyOk(key) && MayCheck(cfg, p, key)
  }

  /** A walk that does not visit `key`. */
  lemma {:induction false} WalkPasses(cfg: Config, p: Peer, walk: Walk, now: int, key: Key)
    requires MayBeTold(cfg, p, key) && WalkOk(walk, now)
    requires forall i :: 0 <= i < |walk| ==> walk[i].0 != key
    ensures var r := CheckAll(cfg, p, walk, now).0;
            && MayBeTold(cfg, r, key) && r.account.log == p.account.log
            && EntryOf(r.account.q.advs, key) == EntryOf(p.account.q.advs, key)
            && |p.account.q.advs| <= |r.account.q.advs| <= |p.account.q.advs| + |walk|
    decreases |walk|
  {
    hide AllOk, Sound, KeyOk, Checked, EntryOf, IsOurs, DirectAfter;
    if walk != [] {
      var n := |walk| - 1;
      WalkPasses(cfg, p, walk[..n], now, key);
      var b := CheckAll(cfg, p, walk[..n], now).0;
      CheckElsewhere(b.account.q.advs, walk[n].0, walk[n].1, key);
      CheckedOk(b.account.q.advs, walk[n].0, walk[n].1);
    }
  }

  /** There is an entry for the destination, or room for one, when the walk first
      reaches it. */
  predicate HasRoom(cfg: Config, p: Peer, walk: Walk, now: int, key: Key, first: nat)
    requires AllOk(p.account.q.advs) && WalkOk(walk, now) && first <= |walk|
  {
    EntryOf(p.account.q.advs, key).Some? ||
    |CheckAll(cfg, p, walk[..first], now).0.account.q.advs| < MAX_ADVERTISED
  }

  /** A forced walk over a destination that may be offered queues its record exactly
      when there is an entry or room for one where the walk first reaches it. */
  lemma {:induction false} WalkQueues(cfg: Config, p: Peer, walk: Walk, now: int, key: Key, c: Case, first: nat)
    requires MayBeTold(cfg, p, key) && WalkOk(walk, now) && Wanted(c, EntryOf(p.account.q.advs, key))
    requires first < |walk| && walk[first].0 == key && forall i :: 0 <= i < first ==> walk[i].0 != key
    requires forall i :: 0 <= i < |walk| && walk[i].0 == key ==> walk[i].1 == c
    ensures var r := CheckAll(cfg, p, walk, now).0; var advs := r.account.q.advs;
            && MayBeTold(cfg, r, key) && r.account.log == p.account.log
            && SameMemory(EntryOf(p.account.q.advs, key), EntryOf(advs, key))
            && (if HasRoom(cfg, p, walk, now, key, first) then QueuedAs(advs, key, c.best)
                else EntryOf(advs, key).None? && MAX_ADVERTISED <= |advs| < |p.account.q.advs| + |walk|)
    decreases |walk|
  {
    hide AllOk, Sound, KeyOk, Checked, EntryOf, IsOurs, DirectAfter, Wanted, Carries;
    var n := |walk| - 1;
    var b := CheckAll(cfg, p, walk[..n], now).0;
    if first == n {
      WalkPasses(cfg, p, walk[..n], now, key);
      ReflexiveMemory(EntryOf(p.account.q.advs, key));
    } else {
      WalkQueues(cfg, p, walk[..n], now, key, c, first);
      assert walk[..n][..first] == walk[..first];
    }
    var advs := b.account.q.advs;
    CheckedOk(advs, walk[n].0, walk[n].1);
    CheckRemembers(advs, walk[n].0, walk[n].1, key);
    SameMemoryTwice(EntryOf(p.account.q.advs, key), EntryOf(advs, key),
      EntryOf(Checked(advs, walk[n].0, walk[n].1), key));
    if walk[n].0 == key {
      SameHold(EntryOf(p.account.q.advs, key), EntryOf(advs, key), c);
      CheckQueues(advs, key, c);
      QueuedHasEntry(advs, key);
    } else {
      CheckElsewhere(advs, walk[n].0, walk[n].1, key);
    }
  }

  lemma {:induction false} ReflexiveMemory(e: Option<Adv>)
    ensures SameMemory(e, e)
  {
  }

  lemma {:induction false} SameMemoryTwice(e: Option<Adv>, f: Option<Adv>, g: Option<Adv>)
    requires SameMemory(e, f) && SameMemory(f, g)
    ensures SameMemory(e, g)
  {
  }

  lemma {:induction false} QueuedHasEntry(advs: seq<Adv>, key: Key)
    ensures RecordQueued(advs, key) ==> EntryOf(advs, key).Some?
  {
  }

  // ----- the drain after it

  lemma {:induction false} QueuedContains(advs: seq<Adv>, i: nat, n: nat, k: nat)
    requires i <= k < n <= |advs| && advs[k].pending
    ensures exists j :: 0 <= j < |QueuedRecs(advs, i, n)| && QueuedRecs(advs, i, n)[j] == RecOf(advs[k])
    decreases n - i
  {
    var head, rest := if advs[i].pending then [RecOf(advs[i])] else [], QueuedRecs(advs, i + 1, n);
    assert QueuedRecs(advs, i, n) == head + rest;
    if k == i {
      assert QueuedRecs(advs, i, n)[0] == RecOf(advs[k]);
    } else {
      QueuedContains(advs, i + 1, n, k);
      var j :| 0 <= j < |rest| && rest[j] == RecOf(advs[k]);
      assert QueuedRecs(advs, i, n)[|head| + j] == RecOf(advs[k]);
    }
  }

  lemma {:induction false} QueuedComes(advs: seq<Adv>, i: nat, n: nat, j: nat)
    requires i <= n <= |advs| && j < |QueuedRecs(advs, i, n)|
    ensures exists k :: i <= k < n && QueuedRecs(advs, i, n)[j] == RecOf(advs[k])
    decreases n - i
  {
    var head, rest := if advs[i].pending then [RecOf(advs[i])] else [], QueuedRecs(advs, i + 1, n);
    if j >= |head| {
      QueuedComes(advs, i + 1, n, j - |head|);
      var k :| i + 1 <= k < n && rest[j - |head|] == RecOf(advs[k]);
    }
  }

  lemma {:induction false} EntryEmitted(advs: seq<Adv>, n: nat, now: int, key: Key)
    requires AllOk(advs) && n <= |advs|
    ensures var k, r := AdvIndex(advs, key, 0), Emitted(advs, n, now);
            EntryOf(r, key) == if k < |advs| then Some(r[k]) else None
  {
    hide AdvOk, Emitted, Committed;
    EmittedOk(advs, n, now);
    AdvIndexIsFirst(advs, key, 0);
    var k, r := AdvIndex(advs, key, 0), Emitted(advs, n, now);
    EmittedKeys(advs, n, now);
    if k < |advs| { EntryFound(r, key, k); } else { AdvIndexIsFirst(r, key, 0); }
  }

  lemma {:induction false} EmittedKeys(advs: seq<Adv>, n: nat, now: int)
    requires n <= |advs|
    ensures forall i :: 0 <= i < |advs| ==> Emitted(advs, n, now)[i].key == advs[i].key
  {
  }

  /** The history after a drain, and the records it sent. */
  lemma {:induction false} DrainLogs(cfg: Config, p: Peer, now: int)
    requires QueueOk(p.account.q) && now > 0 && cfg.transit
    ensures var q := p.account.q; var n := Reached(q, !Allowed(cfg, p), p.Pcf(), now);
            var r := DrainPeer(cfg, p, now).account;
            r.q.advs == Emitted(q.advs, n, now) &&
            r.log == p.account.log + Stamped(QueuedRecs(q.advs, 0, n), p.account.direct, now)
  {
    hide AllOk, DrainOnce, Reached, QueuedRecs, Stamped, Emitted, AnyQueued;
    DrainConserves(p.account.q, !Allowed(cfg, p), p.Pcf(), now);
  }

  /** The drain sends a queued record or leaves it queued, and it sends nothing of a
      destination without an entry. */
  lemma {:induction false} DrainMentions(cfg: Config, p: Peer, now: int, key: Key, c: Case)
    requires QueueOk(p.account.q) && now > 0
    ensures var r, base := DrainPeer(cfg, p, now), |p.account.log|;
            && |r.account.q.advs| == |p.account.q.advs|
            && (EntryOf(r.account.q.advs, key).Some? <==> EntryOf(p.account.q.advs, key).Some?)
            && (QueuedAs(p.account.q.advs, key, c.best) ==>
                  QueuedAs(r.account.q.advs, key, c.best) || SentAs(r.account.log, base, key, c.best))
            && (EntryOf(p.account.q.advs, key).None? ==> !SentAs(r.account.log, base, key, c.best))
  {
    hide AllOk, DrainPeer, Reached, Carries, QueuedRecs;
    if cfg.transit {
      var q, advs := p.account.q, p.account.q.advs;
      var n := Reached(q, !Allowed(cfg, p), p.Pcf(), now);
      var rs, r := QueuedRecs(advs, 0, n), DrainPeer(cfg, p, now).account;
      DrainLogs(cfg, p, now);
      EntryEmitted(advs, n, now, key);
      AdvIndexIsFirst(advs, key, 0);
      var k := AdvIndex(advs, key, 0);
      if k < |advs| {
        if QueuedAs(advs, key, c.best) && k < n {
          QueuedContains(advs, 0, n, k);
          var j :| 0 <= j < |rs| && rs[j] == RecOf(advs[k]);
          assert r.log[|p.account.log| + j].cost == advs[k].pendingRtt;
        }
      } else {
        forall i | |p.account.log| <= i < |r.log| ensures r.log[i].key != key {
          QueuedComes(advs, 0, n, i - |p.account.log|);
        }
      }
    } else {
      NoTransit(cfg, p, now);
    }
  }

  lemma {:induction false} NoTransit(cfg: Config, p: Peer, now: int)
    requires AllOk(p.account.q.advs) && !cfg.transit
    ensures DrainPeer(cfg, p, now) == p
  {
  }

  // ----- the answer

  /** A walk for `p` visits whatever may be offered to it. */
  lemma {:induction false} OfferIsVisited(w: World, crossport: bool, p: nat, key: Key)
    requires w.Valid() && p < MAX_SESSIONS && key.call != "" && Expected(w, crossport, p, key).src >= 0
    ensures exists i ::
              0 <= i < |Visits(w, p, false, MAX_SESSIONS)| && Visits(w, p, false, MAX_SESSIONS)[i] == key
  {
    hide Rows;
    ExpectedIsMinimum(w, crossport, p, key);
    var s := Expected(w, crossport, p, key).src;
    var ls := w.learned[s];
    RowsContain(ls, false, |ls|, IndexOf(ls, key, 0));
    VisitsContain(w, p, MAX_SESSIONS, s, key);
  }

  lemma {:induction false} VisitsContain(w: World, p: nat, n: nat, s: nat, key: Key)
    requires w.Valid() && s < n <= MAX_SESSIONS && s != p && w.sessions[s].active
    requires exists i ::
               0 <= i < |Rows(w.learned[s], false, |w.learned[s]|)| &&
                 Rows(w.learned[s], false, |w.learned[s]|)[i] == key
    ensures exists i :: 0 <= i < |Visits(w, p, false, n)| && Visits(w, p, false, n)[i] == key
  {
    hide Rows;
    var vs := Visits(w, p, false, n - 1);
    if s < n - 1 {
      VisitsContain(w, p, n - 1, s, key);
      var i :| 0 <= i < |vs| && vs[i] == key;
      assert Visits(w, p, false, n)[i] == key;
    } else {
      var rows := Rows(w.learned[s], false, |w.learned[s]|);
      var i :| 0 <= i < |rows| && rows[i] == key;
      assert Visits(w, p, false, n)[|vs| + i] == key;
    }
  }

  /** The walk's first visit to a destination. */
  lemma {:induction false} FirstVisit(walk: Walk, key: Key, i: nat) returns (first: nat)
    requires i < |walk| && walk[i].0 == key
    ensures first <= i && walk[first].0 == key && forall j :: 0 <= j < first ==> walk[j].0 != key
  {
    first := i;
    if j :| 0 <= j < i && walk[j].0 == key { first := FirstVisit(walk, key, j); }
  }

  /** The forced walk, the owed mark and the drain: the record is queued or sent exactly
      when its destination has an entry. */
  lemma {:induction false} AnswerMentions(cfg: Config, p: Peer, walk: Walk, now: int, key: Key, c: Case, first: nat)
    requires MayBeTold(cfg, p, key) && QueueOk(p.account.q) && WalkOk(walk, now) && now > 0
    requires Wanted(c, EntryOf(p.account.q.advs, key))
    requires first < |walk| && walk[first].0 == key && forall i :: 0 <= i < first ==> walk[i].0 != key
    requires forall i :: 0 <= i < |walk| && walk[i].0 == key ==> walk[i].1 == c
    ensures var r, base := Answer(cfg, p, walk, now).account, |p.account.log|;
            && (QueuedAs(r.q.advs, key, c.best) || SentAs(r.log, base, key, c.best) <==> EntryOf(r.q.advs, key).Some?)
            && (EntryOf(r.q.advs, key).Some? <==> HasRoom(cfg, p, walk, now, key, first))
            && (EntryOf(r.q.advs, key).None? ==>
                  && MAX_ADVERTISED <= |r.q.advs| < |p.account.q.advs| + |walk|
                  && EntryOf(p.account.q.advs, key).None?)
  {
    hide AllOk, KeyOk, CheckAll, DrainPeer, Carries, EntryOf, MayCheck, Wanted, Logged, BucketOk, Credit,
      RecordFrames;
    WalkQueues(cfg, p, walk, now, key, c, first);
    CheckAllFair(cfg, p, walk, p.Pcf(), now);
    var b := CheckAll(cfg, p, walk, now).0;
    var d := b.(account := After(b.account, Owe));
    QueuedHasEntry(b.account.q.advs, key);
    DrainMentions(cfg, d, now, key, c);
    QueuedHasEntry(DrainPeer(cfg, d, now).account.q.advs, key);
  }

  /** Before the '3+': the walk it will start for neighbour `p`. */
  function RequestWalk(cfg: NodeConfig, w: World, p: nat, now: int): (walk: Walk)
    requires w.Valid() && KeysOk(w) && p < MAX_SESSIONS
    ensures WalkOk(walk, now)
  {
    VisitsOk(w, p, false, MAX_SESSIONS);
    CasesOk(cfg, w, p, Visits(w, p, false, MAX_SESSIONS), true, now);
    Cases(cfg, w, p, Visits(w, p, false, MAX_SESSIONS), true, now)
  }

  /** Nothing is left out of the answer to a '3+' but what finds the neighbour's table
      full: every destination that has a permitted route, may be told and is not held
      down, whichever neighbour offers it, has its record sent or queued once the
      request has been handled, exactly when it has an entry in the table then; one
      that has none found all of the table in use. */
  lemma {:induction false} AnswerIsComplete(cfg: NodeConfig, w: World, p: nat, peer: Peer, up: bool, key: Key, now: int)
    requires w.Valid() && KeysOk(w) && p < MAX_SESSIONS && QueueOk(peer.account.q)
    requires cfg.peer.transit && key.call != "" && KeyOk(key) && !IsOurs(cfg.peer.own, key) && now > 0
    requires MayTell(cfg, w, p, key)
    requires var e := EntryOf(peer.account.q.advs, key);
             e.Some? && e.value.last >= 60000 && !Expected(w, cfg.crossport, p, key).direct ==>
               now - e.value.lastAt >= 90
    ensures var b, walk := Expected(w, cfg.crossport, p, key), RequestWalk(cfg, w, p, now);
            var r := OnRequest(cfg.peer, peer, up, walk, now); var advs := r.account.q.advs;
            && (QueuedAs(advs, key, b) || SentAs(r.account.log, |peer.account.log|, key, b) <==>
                  EntryOf(advs, key).Some?)
            && (EntryOf(advs, key).None? ==>
                  && 256 <= |advs| < |peer.account.q.advs| + |walk|
                  && EntryOf(peer.account.q.advs, key).None?)
  {
    hide AllOk, KeysOk, KeyOk, Expected, Visits, Answer, QueuedAs, SentAs, EntryOf, IsOurs, HasRoom, Barred,
      IsOurPeer, Knows, MayTell;
    CaseFromTables(cfg, w, p, key, true, now);
    var c, walk := CaseFor(cfg, w, p, key, true, now), RequestWalk(cfg, w, p, now);
    OfferIsVisited(w, cfg.crossport, p, key);
    var i :| 0 <= i < |Visits(w, p, false, MAX_SESSIONS)| && Visits(w, p, false, MAX_SESSIONS)[i] == key;
    var first := FirstVisit(walk, key, i);
    var p1 := NoteEstablished(peer, up);
    var p2 := SendOwn(p1.(quiesced := false, out := p1.out + [Asked(now)]), true, now);
    AnswerMentions(cfg.peer, p2, walk, now, key, c, first);
  }
}
