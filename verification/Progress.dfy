/** Nothing waits without need, nothing of our own is relayed, and a '3-' that is owed
  * goes out: what whole sessions do with the queue.
  */
module Progress {
  import opened World
  import opened Advertise
  import opened Drain
  import opened AdvRuns
  import opened Peers
  import opened PeerRuns
  import opened Handshake
  import opened Sessions

  predicate Within(x: int, lo: int, hi: int) { lo <= x <= hi }

  /** The destination names our own callsign with an SSID of ours. */
  ghost predicate NamesUs(own: Own, key: Key)
  {
    own.call != "" && key.call == own.call &&
    exists ssid :: Within(ssid, own.lo, own.hi) && Within(ssid, key.lo, key.hi)
  }

  /** That is what flex_record_is_ours tests, for ranges that are not empty. */
  lemma {:induction false} OursNamesUs(own: Own, key: Key)
    requires own.lo <= own.hi && key.lo <= key.hi
    ensures IsOurs(own, key) <==> NamesUs(own, key)
  {
    var ssid := if own.lo >= key.lo then own.lo else key.lo;
    if IsOurs(own, key) { assert Within(ssid, own.lo, own.hi) && Within(ssid, key.lo, key.hi); }
  }

  lemma {:induction false} NamesUsIsOurs(own: Own, key: Key)
    ensures NamesUs(own, key) ==> IsOurs(own, key)
  {
  }

  /** No entry and no record sent names us. */
  predicate OthersOnly(cfg: Config, a: Account)
  {
    && QueueOk(a.q)
    && (forall i :: 0 <= i < |a.q.advs| ==> !IsOurs(cfg.own, a.q.advs[i].key))
    && (forall i :: 0 <= i < |a.log| ==> !IsOurs(cfg.own, a.log[i].key))
  }

  /** Whatever is queued while the exchange is open waits for a token. */
  predicate NotIdle(cfg: Config, p: Peer)
  {
    cfg.transit && Allowed(cfg, p) && AnyQueued(p.account.q.advs) ==> p.account.q.tokens < 1.0
  }

  predicate InOrder(cfg: Config, p: Peer) { OthersOnly(cfg, p.account) && NotIdle(cfg, p) }

  lemma {:induction false} CheckOthers(cfg: Config, p: Peer, key: Key, c: Case)
    requires OthersOnly(cfg, p.account) && Sound(c) && KeyOk(key) && AllOk(p.account.q.advs)
    ensures var r := CheckPeer(cfg, p, key, c);
            && OthersOnly(cfg, r.account) && r.account.q.tokens == p.account.q.tokens
            && r == p.(account := r.account)
            && forall other :: other != key && RecordQueued(r.account.q.advs, other) ==>
                 RecordQueued(p.account.q.advs, other)
  {
    hide AdvOk, Sound, KeyOk, IsOurs, Checked;
    CheckedOk(p.account.q.advs, key, c);
    if MayCheck(cfg, p, key) {
      forall other | other != key
        ensures EntryOf(Checked(p.account.q.advs, key, c), other) == EntryOf(p.account.q.advs, other)
      {
        CheckElsewhere(p.account.q.advs, key, c, other);
      }
      var r := Checked(p.account.q.advs, key, c);
      forall i | 0 <= i < |r| ensures !IsOurs(cfg.own, r[i].key) {
        if i < |p.account.q.advs| { assert r[i].key == p.account.q.advs[i].key; }
      }
    }
  }

  /** A walk queues something that was not queued, or reports nothing new. */
  lemma {:induction false} WalkOthers(cfg: Config, p: Peer, walk: Walk, now: int)
    requires OthersOnly(cfg, p.account) && AllOk(p.account.q.advs) && WalkOk(walk, now)
    ensures var b := CheckAll(cfg, p, walk, now); var r := b.0;
            && OthersOnly(cfg, r.account) && r.account.q.tokens == p.account.q.tokens
            && r == p.(account := r.account)
            && (!b.1 ==> forall key :: RecordQueued(r.account.q.advs, key) ==> RecordQueued(p.account.q.advs, key))
    decreases |walk|
  {
    hide OthersOnly, AllOk, Sound, KeyOk, RecordQueued, CheckPeer;
    if walk != [] {
      var n := |walk| - 1;
      WalkOthers(cfg, p, walk[..n], now);
      var b := CheckAll(cfg, p, walk[..n], now);
      CheckOthers(cfg, b.0, walk[n].0, walk[n].1);
    }
  }

  lemma {:induction false} QueuedKeys(advs: seq<Adv>)
    requires AllOk(advs)
    ensures AnyQueued(advs) <==> exists key :: RecordQueued(advs, key)
  {
    hide AdvOk;
    if i :| 0 <= i < |advs| && advs[i].pending {
      EntryFound(advs, advs[i].key, i);
      assert RecordQueued(advs, advs[i].key);
    }
    if key :| RecordQueued(advs, key) { var i := EntryIndex(advs, key); }
  }

  lemma {:induction false} DrainInOrder(cfg: Config, p: Peer, now: int)
    requires OthersOnly(cfg, p.account) && AllOk(p.account.q.advs) && now > 0
    ensures InOrder(cfg, DrainPeer(cfg, p, now))
  {
    hide AllOk, DrainOnce, Reached, IsOurs, AnyQueued, QueuedRecs, Flatten;
    if cfg.transit {
      var q, closed, pcf := p.account.q, !Allowed(cfg, p), p.Pcf();
      DrainConserves(q, closed, pcf, now);
      DrainKeepsEntries(q, closed, pcf, now);
      var n, d := Reached(q, closed, pcf, now), DrainOnce(q, closed, pcf, now);
      var r := DrainPeer(cfg, p, now);
      EmittedNames(q.advs, n, now);
      forall i | 0 <= i < |QueuedRecs(q.advs, 0, n)| ensures !IsOurs(cfg.own, KeyOf(QueuedRecs(q.advs, 0, n)[i])) {
        RecordComes(q.advs, 0, n, i);
      }
      forall i | 0 <= i < |r.account.log| ensures !IsOurs(cfg.own, r.account.log[i].key) {
        if i >= |p.account.log| {
          assert r.account.log[i].key == KeyOf(QueuedRecs(q.advs, 0, n)[i - |p.account.log|]);
        }
      }
      if Allowed(cfg, r) { AllowedBefore(cfg, p, now); }
    }
  }

  lemma {:induction false} AllowedBefore(cfg: Config, p: Peer, now: int)
    requires AllOk(p.account.q.advs)
    ensures Allowed(cfg, DrainPeer(cfg, p, now)) ==> Allowed(cfg, p)
  {
    hide AllOk, DrainOnce;
  }

  lemma {:induction false} EmittedNames(advs: seq<Adv>, n: nat, now: int)
    requires n <= |advs|
    ensures forall i :: 0 <= i < |advs| ==> Emitted(advs, n, now)[i].key == advs[i].key
  {
  }

  lemma {:induction false} RecordComes(advs: seq<Adv>, i: nat, n: nat, j: nat)
    requires i <= n <= |advs| && j < |QueuedRecs(advs, i, n)|
    ensures exists k :: i <= k < n && KeyOf(QueuedRecs(advs, i, n)[j]) == advs[k].key
    decreases n - i
  {
    var head, rest := if advs[i].pending then [RecOf(advs[i])] else [], QueuedRecs(advs, i + 1, n);
    if j >= |head| {
      RecordComes(advs, i + 1, n, j - |head|);
      var k :| i + 1 <= k < n && KeyOf(rest[j - |head|]) == advs[k].key;
    } else {
      assert KeyOf(QueuedRecs(advs, i, n)[j]) == advs[i].key;
    }
  }

  /** Fields that the queue does not depend on. */
  lemma {:induction false} SameQueue(cfg: Config, p: Peer, r: Peer)
    requires InOrder(cfg, p) && r.account == p.account && (Allowed(cfg, r) ==> Allowed(cfg, p))
    ensures InOrder(cfg, r)
  {
    hide OthersOnly, AnyQueued;
  }

  lemma {:induction false} SeedInOrder(cfg: Config, p: Peer, walk: Walk, now: int)
    requires InOrder(cfg, p) && AllOk(p.account.q.advs) && WalkOk(walk, now) && now > 0
    ensures InOrder(cfg, Seed(cfg, p, walk, now)) && InOrder(cfg, Neighbours(cfg, p, walk, now))
  {
    hide OthersOnly, AllOk, DrainPeer, CheckAll, AnyQueued, WalkOk, RecordQueued, InOrder;
    InOrderParts(cfg, p);
    WalkOthers(cfg, p, walk, now);
    var b := CheckAll(cfg, p, walk, now);
    DrainInOrder(cfg, b.0, now);
    SameQueue(cfg, DrainPeer(cfg, b.0, now), DrainPeer(cfg, b.0, now).(lastAdvert := now));
    if !b.1 {
      QueuedKeys(b.0.account.q.advs);
      QueuedKeys(p.account.q.advs);
      InOrderAgain(cfg, p, b.0);
      SameQueue(cfg, b.0, b.0.(lastAdvert := now));
    }
    if walk == [] { NothingWalked(cfg, p, now); SameQueue(cfg, p, p.(lastAdvert := now)); }
  }

  lemma {:induction false} NothingWalked(cfg: Config, p: Peer, now: int)
    requires AllOk(p.account.q.advs)
    ensures WalkOk([], now) && CheckAll(cfg, p, [], now) == (p, false)
  {
  }

  lemma {:induction false} InOrderParts(cfg: Config, p: Peer)
    ensures InOrder(cfg, p) <==> OthersOnly(cfg, p.account) && NotIdle(cfg, p)
  {
  }

  lemma {:induction false} InOrderAgain(cfg: Config, p: Peer, r: Peer)
    requires InOrder(cfg, p) && OthersOnly(cfg, r.account) && r == p.(account := r.account)
    requires r.account.q.tokens == p.account.q.tokens
    requires AnyQueued(r.account.q.advs) ==> AnyQueued(p.account.q.advs)
    ensures InOrder(cfg, r)
  {
    hide OthersOnly, AnyQueued;
  }

  lemma {:induction false} IntroduceInOrder(cfg: Config, p: Peer, walk: Walk, now: int)
    requires InOrder(cfg, p) && AllOk(p.account.q.advs) && WalkOk(walk, now) && now > 0
    ensures InOrder(cfg, Introduce(cfg, p, walk, now))
  {
    hide InOrder, AllOk, Seed, WalkOk;
    var q := SendOwn(p, false, now).(sentRoutes := true);
    SameQueue(cfg, p, q);
    SeedInOrder(cfg, q, walk, now);
  }

  lemma {:induction false} ForgetInOrder(cfg: Config, p: Peer, why: Item)
    ensures InOrder(cfg, Forget(p, why))
  {
  }

  lemma {:induction false} AnswerInOrder(cfg: Config, p: Peer, walk: Walk, now: int)
    requires OthersOnly(cfg, p.account) && AllOk(p.account.q.advs) && WalkOk(walk, now) && now > 0
    ensures InOrder(cfg, Answer(cfg, p, walk, now))
  {
    hide InOrder, AllOk, WalkOk, CheckAll, DrainPeer, IsOurs;
    WalkOthers(cfg, p, walk, now);
    var b := CheckAll(cfg, p, walk, now).0;
    var d := b.(account := AdvRuns.After(b.account, Owe));
    DrainInOrder(cfg, d, now);
  }

  lemma {:induction false} TimerInOrder(cfg: Config, p: Peer, beat: bool, refresh: Walk, walk: Walk, now: int)
    requires InOrder(cfg, p) && AllOk(p.account.q.advs) && WalkOk(refresh, now) && WalkOk(walk, now) && now > 0
    ensures InOrder(cfg, OnTimer(cfg, p, beat, refresh, walk, now))
  {
    hide InOrder, AllOk, WalkOk, Neighbours, Introduce, DrainPeer, SendLinkTime, OnTimer, SendOwn;
    TimerIsRefreshed(cfg, p, beat, refresh, walk, now);
    var k := SendKeepalive(p, now);
    LinkTimeOnly(k, now);
    var p0 := if beat then SendLinkTime(k, now) else p;
    SameQueue(cfg, p, p0);
    var q := SendOwn(p0.(lastAdvert := now), false, now);
    OwnKeeps(p0.(lastAdvert := now), false, now);
    SameQueue(cfg, p0, q);
    SeedInOrder(cfg, q, refresh, now);
    var p1 := Refreshed(cfg, p, beat, refresh, now);
    IntroduceInOrder(cfg, p1, walk, now);
    var p2 := if cfg.transit && !p1.sentRoutes && p1.Established() then Introduce(cfg, p1, walk, now) else p1;
    InOrderParts(cfg, p2);
    DrainInOrder(cfg, p2, now);
  }

  lemma {:induction false} OwnKeeps(p: Peer, deferMark: bool, now: int)
    ensures var r := SendOwn(p, deferMark, now); r == p.(out := r.out)
  {
  }

  lemma {:induction false} KeptKeeps(p: Peer, len: nat, term: char, up: bool, echo: bool, now: int)
    ensures var r := Kept(p, len, term, up, echo, now); r.account == p.account && r.quiesced == p.quiesced
  {
  }

  lemma {:induction false} StepInOrder(cfg: Config, p: Peer, e: Event)
    requires Feasible(p, e) && InOrder(cfg, p) && e.now > 0
    ensures InOrder(cfg, Peers.Step(cfg, p, e))
  {
    hide InOrder, AllOk, WalkOk, Introduce, DrainPeer, CheckAll, Answer, OnTimer, SendLinkTime, Forget, Greeted, Kept,
      OthersOnly, SendOwn;
    match e {
      case GotInit(long, walk, now) =>
        InitIsGreeted(cfg, p, long, walk, now);
        var answers, p0 := AnswersInit(p, now), p.(gotInit := true);
        var p1 := GuessShape(p0, long, now);
        var p2 := Greeted(p0, answers, long, now);
        GreetedKeeps(p0, answers, long, now);
        ForgetInOrder(cfg, SendKeepalive(SendInit(p1, now), now), InitAnswered(now));
        if !answers { SameQueue(cfg, p, p2); }
        IntroduceInOrder(cfg, p2, walk, now);
      case GotKeepalive(len, term, up, echo, walk, now) =>
        KeepaliveIsKept(cfg, p, len, term, up, echo, walk, now);
        var p3 := Kept(p, len, term, up, echo, now);
        KeptKeeps(p, len, term, up, echo, now);
        SameQueue(cfg, p, p3);
        IntroduceInOrder(cfg, p3, walk, now);
      case GotLinkTime(up, now) =>
        LinkTimeOnly(NoteEstablished(p, up), now);
        SameQueue(cfg, p, SendLinkTime(NoteEstablished(p, up), now));
      case Heard(up, now) => SameQueue(cfg, p, NoteEstablished(p, up));
      case GotRequest(up, walk, now) => RequestInOrder(cfg, p, up, walk, now);
      case Changed(walk, now) =>
        InOrderParts(cfg, p);
        WalkOthers(cfg, p, walk, now);
        DrainInOrder(cfg, CheckAll(cfg, p, walk, now).0, now);
      case Timer(beat, refresh, walk, now) => TimerInOrder(cfg, p, beat, refresh, walk, now);
      case Restarted(now) => ForgetInOrder(cfg, p, LinkRestarted(now));
      case Rehandshake(now) => SameQueue(cfg, p, Peers.Step(cfg, p, e));
    }
  }

  lemma {:induction false} GreetedKeeps(p: Peer, answers: bool, long: bool, now: int)
    ensures var r := Greeted(p, answers, long, now);
            if answers then r == Forget(SendKeepalive(SendInit(GuessShape(p, long, now), now), now), InitAnswered(now))
            else r.account == p.account && r.quiesced == p.quiesced
  {
  }

  lemma {:induction false} RequestInOrder(cfg: Config, p: Peer, up: bool, walk: Walk, now: int)
    requires AllOk(p.account.q.advs) && WalkOk(walk, now) && InOrder(cfg, p) && now > 0
    ensures InOrder(cfg, OnRequest(cfg, p, up, walk, now))
  {
    hide InOrder, AllOk, WalkOk, Answer, SendOwn, OthersOnly;
    var p1 := NoteEstablished(p, up);
    var a := p1.(quiesced := false, out := p1.out + [Asked(now)]);
    OwnKeeps(a, cfg.transit, now);
    var p2 := SendOwn(a, cfg.transit, now);
    InOrderParts(cfg, p);
    if cfg.transit {
      AnswerInOrder(cfg, p2, walk, now);
      SameQueue(cfg, Answer(cfg, p2, walk, now), Answer(cfg, p2, walk, now).(sentRoutes := true));
    } else {
      InOrderParts(cfg, p2.(sentRoutes := true));
    }
  }

  lemma {:induction false} SessionInOrder(cfg: Config, start: int, lastAdvert: int, es: seq<Event>)
    requires start > 0 && SessionRun(cfg, start, lastAdvert, es).Some?
    ensures var s := SessionRun(cfg, start, lastAdvert, es).value; InOrder(cfg, s.0) && s.1 >= start
    decreases |es|
  {
    hide InOrder, Peers.Step, CanHappen;
    if es == [] {
      NothingYet(cfg, start, lastAdvert);
    } else {
      var n := |es| - 1;
      SessionInOrder(cfg, start, lastAdvert, es[..n]);
      var s := SessionRun(cfg, start, lastAdvert, es[..n]).value;
      HappensNext(s.0, es[n], s.1);
      StepInOrder(cfg, s.0, es[n]);
    }
  }

  lemma {:induction false} NothingYet(cfg: Config, start: int, lastAdvert: int)
    ensures InOrder(cfg, Started(start, lastAdvert))
  {
  }

  /** Over any session: with transit on, a record that is queued while the exchange is
      open waits for nothing but a token, after every event; and no record that was
      sent or is queued names our own callsign with an SSID of ours. */
  lemma {:induction false} NothingWaitsNeedlessly(cfg: Config, start: int, lastAdvert: int, es: seq<Event>)
    requires start > 0 && SessionRun(cfg, start, lastAdvert, es).Some?
    ensures var p := SessionRun(cfg, start, lastAdvert, es).value.0;
            && (cfg.transit && !(cfg.quiesce && Shut(p.out)) && p.account.q.tokens >= 1.0 ==>
                  forall i :: 0 <= i < |p.account.q.advs| ==> !p.account.q.advs[i].pending)
            && (forall i :: 0 <= i < |p.account.log| ==> !NamesUs(cfg.own, p.account.log[i].key))
            && (forall i :: 0 <= i < |p.account.q.advs| ==> !NamesUs(cfg.own, p.account.q.advs[i].key))
  {
    hide SessionRun, InTune, NamesUs, IsOurs, Shut;
    SessionInOrder(cfg, start, lastAdvert, es);
    SessionInTune(cfg, start, lastAdvert, es);
    var p := SessionRun(cfg, start, lastAdvert, es).value.0;
    QuiescedIsShut(cfg, p, es, lastAdvert);
    forall key ensures NamesUs(cfg.own, key) ==> IsOurs(cfg.own, key) { NamesUsIsOurs(cfg.own, key); }
  }

  lemma {:induction false} QuiescedIsShut(cfg: Config, p: Peer, es: seq<Event>, start: int)
    requires InTune(cfg, p, es, start)
    ensures p.quiesced <==> cfg.quiesce && Shut(p.out)
  {
    hide HeardOf, ShapeOf, Spoken, Introduced, Answers.Owing, LastMarkAt, Handshake.LastInitAt, LastLinkTimeAt;
  }

  // ----- the mark that is owed

  predicate NoneQueued(p: Peer) { forall i :: 0 <= i < |p.account.q.advs| ==> !p.account.q.advs[i].pending }

  /** With nothing queued the timer's turn starts the silence before the '3-', and ends
      it when ten seconds have passed, or four with an (X)Net neighbour. */
  lemma {:induction false} TurnOwes(cfg: Config, p: Peer, beat: bool, now: int)
    requires QueueOk(p.account.q) && NoneQueued(p) && cfg.transit && p.sentRoutes && p.account.q.eobPending && now > 0
    ensures var r := OnTimer(cfg, p, beat, [], [], now); var since := p.account.q.eobSince;
            var done := since != 0 && now - since >= (if p.Pcf() then 10 else 4);
            && QueueOk(r.account.q) && NoneQueued(r) && r.sentRoutes && r.Pcf() == p.Pcf()
            && r.account.q.eobPending == !done
            && (!done ==> r.account.q.eobSince == (if since == 0 then now else since))
            && (done ==> r.out != [] && r.out[|r.out| - 1] == Mark(now, true, p.Pcf()))
  {
    hide Frames, Refilled, Emitted, SendLinkTime, AllOk;
    var k := SendKeepalive(p, now);
    LinkTimeOnly(k, now);
    var q := if beat then SendLinkTime(k, now) else p;
    assert OnTimer(cfg, p, beat, [], [], now) == DrainPeer(cfg, q, now);
    var closed, pcf := !Allowed(cfg, q), q.Pcf();
    DrainConserves(q.account.q, closed, pcf, now);
    DrainKeepsEntries(q.account.q, closed, pcf, now);
    NothingDrained(q.account.q, closed, pcf, now);
    QuietTime(pcf);
  }

  lemma {:induction false} NothingDrained(q: Queue, closed: bool, pcf: bool, now: int)
    requires QueueOk(q) && q.eobPending && now > 0 && forall i :: 0 <= i < |q.advs| ==> !q.advs[i].pending
    ensures var d := DrainOnce(q, closed, pcf, now);
            var done := q.eobSince != 0 && now - q.eobSince >= RefillSeconds(pcf) * EOB_QUIET_REFILLS;
            && d.frames == [] && (forall i :: 0 <= i < |d.q.advs| ==> !d.q.advs[i].pending) && d.eob == done
            && d.q.eobPending == !done && (!done ==> d.q.eobSince == (if q.eobSince == 0 then now else q.eobSince))
  {
    hide Refilled, RefillSeconds, AdvOk;
    var max := FrameRecords(pcf);
    var tokens := Refilled(q, pcf, now);
    NothingQueuedNoRecs(q.advs, 0, FrameEnd(q.advs, 0, 1, 0, max));
    FramesStep(q.advs, 0, tokens, max);
  }

  /** A '3-' that is owed goes out: with nothing left to send, at the first of the timer's
      turns that comes ten seconds or more (four with an (X)Net neighbour) after
      another, unless it went out before. */
  lemma {:induction false} OwedMarkGoesOut(cfg: Config, p: Peer, beats: seq<(bool, int)>)
    requires QueueOk(p.account.q) && NoneQueued(p) && cfg.transit && p.sentRoutes && p.account.q.eobPending
    requires |beats| >= 2 && p.account.q.eobSince == 0
    requires forall i :: 0 <= i < |beats| ==> beats[i].1 > 0
    requires beats[|beats| - 1].1 - beats[0].1 >= (if p.Pcf() then 10 else 4)
    requires forall i :: 0 < i < |beats| - 1 ==> beats[i].1 - beats[0].1 < (if p.Pcf() then 10 else 4)
    ensures QueueOk(Turns(cfg, p, beats).account.q) && var r := Turns(cfg, p, beats);
            r.out != [] && r.out[|r.out| - 1] == Mark(beats[|beats| - 1].1, true, p.Pcf()) && !r.account.q.eobPending
  {
    hide OnTimer, NoneQueued, AllOk;
    var n := |beats| - 1;
    TurnsWait(cfg, p, beats[..n]);
    TurnOwes(cfg, Turns(cfg, p, beats[..n]), beats[n].0, beats[n].1);
  }

  /** The session after turns of the timer with nothing to walk. */
  function Turns(cfg: Config, p: Peer, beats: seq<(bool, int)>): (r: Peer)
    requires AllOk(p.account.q.advs)
    ensures AllOk(r.account.q.advs)
  {
    if beats == [] then p
    else OnTimer(cfg, Turns(cfg, p, beats[..|beats| - 1]), beats[|beats| - 1].0, [], [], beats[|beats| - 1].1)
  }

  lemma {:induction false} TurnsWait(cfg: Config, p: Peer, beats: seq<(bool, int)>)
    requires QueueOk(p.account.q) && NoneQueued(p) && cfg.transit && p.sentRoutes && p.account.q.eobPending
    requires |beats| >= 1 && p.account.q.eobSince == 0
    requires forall i :: 0 <= i < |beats| ==> beats[i].1 > 0
    requires forall i :: 0 < i < |beats| ==> beats[i].1 - beats[0].1 < (if p.Pcf() then 10 else 4)
    ensures var r := Turns(cfg, p, beats);
            && QueueOk(r.account.q) && NoneQueued(r) && r.sentRoutes && r.account.q.eobPending && r.Pcf() == p.Pcf()
            && r.account.q.eobSince == beats[0].1
    decreases |beats|
  {
    hide OnTimer, NoneQueued, AllOk;
    var n := |beats| - 1;
    if n == 0 {
      assert beats[..0] == [];
      assert Turns(cfg, p, beats[..0]) == p;
    } else {
      TurnsWait(cfg, p, beats[..n]);
    }
    TurnOwes(cfg, Turns(cfg, p, beats[..n]), beats[n].0, beats[n].1);
  }
}
