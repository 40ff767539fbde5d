/** The answer to a '3+' is one batch: no '3-' of another kind cuts it short. */
module Answers {
  import opened World
  import opened Advertise
  import opened CompactCodec
  import opened Drain
  import opened AdvRuns
  import opened Peers
  import opened PeerRuns

  /** What ends an answer: its own '3-', or the table being cleared. */
  predicate Ends(x: Item) { (x.Mark? && x.owed) || x.InitAnswered? || x.LinkRestarted? }

  predicate StrayMark(x: Item) { x.Mark? && !x.owed }

  /** Between a '3+' and any '3-' that is not the one owed, the answer has ended. */
  predicate AnsweredInOnePiece(out: seq<Item>)
  {
    forall i, j :: 0 <= i < j < |out| && out[i].Asked? && StrayMark(out[j]) ==> exists k :: i < k < j && Ends(out[k])
  }

  /** An answer is under way. */
  predicate Owing(out: seq<Item>)
  {
    out != [] && (out[|out| - 1].Asked? || (!Ends(out[|out| - 1]) && Owing(out[..|out| - 1])))
  }

  predicate NoStrayMarks(out: seq<Item>) { forall j :: 0 <= j < |out| && StrayMark(out[j]) ==> !Owing(out[..j]) }

  /** While an answer is under way its '3-' is owed. */
  predicate Tidy(p: Peer) { NoStrayMarks(p.out) && (Owing(p.out) ==> p.account.q.eobPending) }

  lemma {:induction false} OwingSnoc(out: seq<Item>, x: Item)
    ensures Owing(out + [x]) == (x.Asked? || (!Ends(x) && Owing(out)))
    ensures NoStrayMarks(out) && (StrayMark(x) ==> !Owing(out)) ==> NoStrayMarks(out + [x])
  {
    var r := out + [x];
    assert r[..|out|] == out;
    if NoStrayMarks(out) && (StrayMark(x) ==> !Owing(out)) {
      forall j | 0 <= j < |r| && StrayMark(r[j]) ensures !Owing(r[..j]) {
        assert r[..j] == out[..j];
        if j == |out| { assert out[..j] == out; }
      }
    }
  }

  lemma {:induction false} OwingUntilEnd(out: seq<Item>, i: nat)
    requires i < |out| && out[i].Asked? && forall k :: i < k < |out| ==> !Ends(out[k])
    ensures Owing(out)
  {
    var n := |out| - 1;
    if i < n {
      assert forall k :: i < k < n ==> out[..n][k] == out[k];
      OwingUntilEnd(out[..n], i);
    }
  }

  lemma {:induction false} NoStrayMarksMeansOnePiece(out: seq<Item>)
    requires NoStrayMarks(out)
    ensures AnsweredInOnePiece(out)
  {
    hide Owing;
    forall i, j | 0 <= i < j < |out| && out[i].Asked? && StrayMark(out[j])
      ensures exists k :: i < k < j && Ends(out[k])
    {
      if forall k :: i < k < j ==> !Ends(out[k]) {
        assert forall k :: 0 <= k < j ==> out[..j][k] == out[k];
        OwingUntilEnd(out[..j], i);
      }
    }
  }

  // ----- one step each

  lemma {:induction false} ItemTidy(p: Peer, x: Item)
    requires Tidy(p) && !x.Asked? && !StrayMark(x) && (x.Mark? ==> !p.account.q.eobPending)
    ensures Tidy(p.(out := p.out + [x]))
  {
    hide Owing, NoStrayMarks;
    OwingSnoc(p.out, x);
  }

  lemma {:induction false} LinkTimeTidy(p: Peer, now: int)
    requires Tidy(p)
    ensures var r := SendLinkTime(p, now);
            Tidy(r) && r.account == p.account && r.sentRoutes == p.sentRoutes && r.Established() == p.Established()
  {
    hide Tidy;
    ItemTidy(p, LinkTimeSent(now));
    assert p.(out := p.out + [LinkTimeSent(now)], lastLt := now).out == p.(out := p.out + [LinkTimeSent(now)]).out;
    SameTidy(p.(out := p.out + [LinkTimeSent(now)]), p.(out := p.out + [LinkTimeSent(now)], lastLt := now));
  }

  lemma {:induction false} SameTidy(p: Peer, q: Peer)
    requires Tidy(p) && q.out == p.out && q.account == p.account
    ensures Tidy(q)
  {
  }

  lemma {:induction false} SendOwnTidy(p: Peer, deferMark: bool, now: int)
    requires Tidy(p) && (deferMark || !p.account.q.eobPending)
    ensures Tidy(SendOwn(p, deferMark, now))
  {
    hide Owing, NoStrayMarks;
    var own, mark := OwnRecord(now), Mark(now, false, p.Pcf());
    OwingSnoc(p.out, own);
    OwingSnoc(p.out + [own], mark);
    assert p.out + [own] + [] == p.out + [own];
  }

  lemma {:induction false} CheckAllTidy(cfg: Config, p: Peer, walk: Walk, now: int)
    requires AllOk(p.account.q.advs) && WalkOk(walk, now)
    ensures var r := CheckAll(cfg, p, walk, now).0;
            r.out == p.out && r.account.q.eobPending == p.account.q.eobPending && r.sentRoutes == p.sentRoutes
    decreases |walk|
  {
    hide AllOk, Sound, KeyOk, IsQueued, Checked, DirectAfter, MayCheck;
    if walk != [] { CheckAllTidy(cfg, p, walk[..|walk| - 1], now); }
  }

  lemma {:induction false} SendsTidy(out: seq<Item>, frames: seq<seq<Rec>>, now: int)
    ensures Owing(out + Sends(frames, now)) == Owing(out)
    ensures NoStrayMarks(out) ==> NoStrayMarks(out + Sends(frames, now))
    decreases |frames|
  {
    hide Owing, NoStrayMarks;
    if frames == [] {
      assert out + Sends(frames, now) == out;
    } else {
      var head, tail := Records(frames[0], now), frames[1..];
      OwingSnoc(out, head);
      SendsTidy(out + [head], tail, now);
      assert out + Sends(frames, now) == (out + [head]) + Sends(tail, now);
    }
  }

  lemma {:induction false} DrainTidy(cfg: Config, p: Peer, now: int)
    requires AllOk(p.account.q.advs) && QueueOk(p.account.q) && now > 0 && Tidy(p)
    ensures var r := DrainPeer(cfg, p, now);
            Tidy(r) && r.sentRoutes == p.sentRoutes && (r.account.q.eobPending ==> p.account.q.eobPending)
  {
    hide AllOk, QueueOk, DrainOnce, Owing, NoStrayMarks, Flatten;
    if cfg.transit {
      var closed, pcf := !Allowed(cfg, p), p.Pcf();
      var d := DrainOnce(p.account.q, closed, pcf, now);
      PeerAfterDrain(cfg, p, now, d);
      MarkSettles(p.account.q, closed, pcf, now);
      SendsTidy(p.out, d.frames, now);
      var mid := p.out + Sends(d.frames, now);
      OwingSnoc(mid, Mark(now, true, pcf));
      assert mid + [] == mid;
    }
  }

  /** The owed mark stays owed until it goes out. */
  lemma {:induction false} MarkSettles(q: Queue, closed: bool, pcf: bool, now: int)
    requires AllOk(q.advs)
    ensures var d := DrainOnce(q, closed, pcf, now); d.q.eobPending == (q.eobPending && !d.eob)
  {
    hide AllOk, Frames, Emitted, AnyQueued, Refilled, RefillSeconds;
  }

  lemma {:induction false} SeedTidy(cfg: Config, p: Peer, walk: Walk, now: int)
    requires AllOk(p.account.q.advs) && QueueOk(p.account.q) && WalkOk(walk, now) && now > 0 && Tidy(p)
    ensures Tidy(Seed(cfg, p, walk, now)) && Tidy(Neighbours(cfg, p, walk, now))
    ensures var r := Neighbours(cfg, p, walk, now);
            r.sentRoutes == p.sentRoutes && (r.account.q.eobPending ==> p.account.q.eobPending)
  {
    hide AllOk, QueueOk, CheckAll, DrainPeer, WalkOk, Owing, NoStrayMarks;
    if cfg.transit {
      CheckAllTidy(cfg, p, walk, now);
      WalkKeepsQueue(cfg, p, walk, now);
      DrainTidy(cfg, CheckAll(cfg, p, walk, now).0, now);
    }
  }

  lemma {:induction false} WalkKeepsQueue(cfg: Config, p: Peer, walk: Walk, now: int)
    requires AllOk(p.account.q.advs) && QueueOk(p.account.q) && WalkOk(walk, now)
    ensures QueueOk(CheckAll(cfg, p, walk, now).0.account.q)
    decreases |walk|
  {
    hide AllOk, Sound, KeyOk, IsQueued, Checked, DirectAfter, MayCheck;
    if walk != [] {
      var n := |walk| - 1;
      WalkKeepsQueue(cfg, p, walk[..n], now);
      CheckKeepsQueue(cfg, CheckAll(cfg, p, walk[..n], now).0, walk[n].0, walk[n].1);
    }
  }

  lemma {:induction false} CheckKeepsQueue(cfg: Config, p: Peer, key: Key, c: Case)
    requires AllOk(p.account.q.advs) && QueueOk(p.account.q) && Sound(c) && KeyOk(key)
    ensures QueueOk(CheckPeer(cfg, p, key, c).account.q)
  {
    hide AllOk, Checked, DirectAfter, MayCheck, Sound, KeyOk;
    CheckedOk(p.account.q.advs, key, c);
  }

  lemma {:induction false} IntroduceTidy(cfg: Config, p: Peer, walk: Walk, now: int)
    requires AllOk(p.account.q.advs) && QueueOk(p.account.q) && WalkOk(walk, now) && now > 0 && Tidy(p) &&
             !p.account.q.eobPending
    ensures Tidy(Introduce(cfg, p, walk, now))
  {
    hide AllOk, QueueOk, Seed, WalkOk, Owing, NoStrayMarks;
    SendOwnTidy(p, false, now);
    SeedTidy(cfg, SendOwn(p, false, now).(sentRoutes := true), walk, now);
  }

  lemma {:induction false} ForgetTidy(p: Peer, why: Item)
    requires Tidy(p) && (why.InitAnswered? || why.LinkRestarted?)
    ensures Tidy(Forget(p, why)) && QueueOk(Forget(p, why).account.q)
  {
    hide Owing, NoStrayMarks;
    OwingSnoc(p.out, why);
  }

  // ----- the events

  lemma {:induction false} OnInitTidy(cfg: Config, p: Peer, long: bool, walk: Walk, now: int)
    requires AllOk(p.account.q.advs) && QueueOk(p.account.q) && WalkOk(walk, now) && now > 0 && Tidy(p) && Settled(p)
    ensures Tidy(OnInit(cfg, p, long, walk, now))
  {
    hide AllOk, QueueOk, Introduce, WalkOk, Owing, NoStrayMarks;
    var p0 := p.(gotInit := true);
    var a := p0.(kaLen := KA_LEN_PCF, kaTerm := '\r');
    ItemTidy(a, KeepaliveSent(now));
    var p1 := GuessShape(p0, long, now);
    if AnswersInit(p, now) {
      ItemTidy(p1, InitSent(now));
      var s := SendInit(p1, now);
      ItemTidy(s, KeepaliveSent(now));
      ForgetTidy(SendKeepalive(s, now), InitAnswered(now));
      IntroduceTidy(cfg, Forget(SendKeepalive(s, now), InitAnswered(now)), walk, now);
    } else if !p1.sentRoutes {
      IntroduceTidy(cfg, p1, walk, now);
    }
  }

  lemma {:induction false} OnKeepaliveTidy(cfg: Config, p: Peer, len: nat, term: char, up: bool, echo: bool,
                                           walk: Walk, now: int)
    requires AllOk(p.account.q.advs) && QueueOk(p.account.q) && WalkOk(walk, now) && now > 0 && Tidy(p) && Settled(p)
    ensures Tidy(OnKeepalive(cfg, p, len, term, up, echo, walk, now))
  {
    hide AllOk, QueueOk, Introduce, WalkOk, Owing, NoStrayMarks, SendLinkTime;
    var p1 := NoteEstablished(p, up);
    var p2 := if 2 <= len <= KA_LEN then p1.(kaLen := len, kaTerm := term) else p1;
    ItemTidy(p2, KeepaliveSent(now));
    var q := if echo then SendKeepalive(p2, now) else p2;
    LinkTimeTidy(q, now);
    var p3 := SendLinkTime(q, now);
    if !p3.sentRoutes && p3.Established() { IntroduceTidy(cfg, p3, walk, now); }
  }

  lemma {:induction false} OnRequestTidy(cfg: Config, p: Peer, up: bool, walk: Walk, now: int)
    requires AllOk(p.account.q.advs) && QueueOk(p.account.q) && WalkOk(walk, now) && now > 0 && Tidy(p) && cfg.transit
    ensures Tidy(OnRequest(cfg, p, up, walk, now))
  {
    hide AllOk, QueueOk, CheckAll, DrainPeer, WalkOk, Owing, NoStrayMarks;
    var p1 := NoteEstablished(p, up);
    var asked := p1.out + [Asked(now)];
    OwingSnoc(p1.out, Asked(now));
    OwingSnoc(asked, OwnRecord(now));
    var p2 := SendOwn(p1.(quiesced := false, out := asked), cfg.transit, now);
    assert p2.out == asked + [OwnRecord(now)];
    CheckAllTidy(cfg, p2, walk, now);
    WalkKeepsQueue(cfg, p2, walk, now);
    var b := CheckAll(cfg, p2, walk, now).0;
    var c := b.(account := After(b.account, Owe));
    OwingKeepsQueue(b.account.q);
    DrainTidy(cfg, c, now);
  }

  lemma {:induction false} OwingKeepsQueue(q: Queue)
    requires QueueOk(q)
    ensures QueueOk(q.(eobPending := true))
  {
  }

  lemma {:induction false} OnTimerTidy(cfg: Config, p: Peer, beat: bool, refresh: Walk, walk: Walk, now: int)
    requires AllOk(p.account.q.advs) && PeerOk(cfg, p, now) && now > 0 && Tidy(p)
    requires WalkOk(refresh, now) && WalkOk(walk, now)
    ensures Tidy(OnTimer(cfg, p, beat, refresh, walk, now))
  {
    hide AllOk, Core, QueueOk, Introduce, Neighbours, DrainPeer, WalkOk, Owing, NoStrayMarks, SendLinkTime;
    ItemTidy(p, KeepaliveSent(now));
    LinkTimeTidy(SendKeepalive(p, now), now);
    var p0 := if beat then SendLinkTime(SendKeepalive(p, now), now) else p;
    BeatKeeps(cfg, p, true, now);
    var p1 := p0;
    if cfg.transit && p0.sentRoutes && Allowed(cfg, p0) && !p0.account.q.eobPending &&
      now - p0.lastAdvert >= ADVERT_INTERVAL {
      var a := SendOwn(p0.(lastAdvert := now), false, now);
      SendOwnTidy(p0.(lastAdvert := now), false, now);
      OkQueue(cfg, p0, now);
      SeedTidy(cfg, a, refresh, now);
      RefreshKeeps(cfg, p0, refresh, now);
      p1 := Neighbours(cfg, a, refresh, now);
    }
    OkQueue(cfg, p1, now);
    var p2 := p1;
    if cfg.transit && !p1.sentRoutes && p1.Established() {
      IntroduceTidy(cfg, p1, walk, now);
      IntroduceKeeps(cfg, p1, walk, now);
      p2 := Introduce(cfg, p1, walk, now);
    }
    OkQueue(cfg, p2, now);
    DrainTidy(cfg, p2, now);
  }

  lemma {:induction false} OkQueue(cfg: Config, p: Peer, t: int)
    requires PeerOk(cfg, p, t)
    ensures QueueOk(p.account.q)
  {
  }

  // ----- whole sessions

  lemma {:induction false} StepTidy(cfg: Config, p: Peer, e: Event, t: int)
    requires PeerOk(cfg, p, t) && CanHappen(p, e, t) && t > 0 && Tidy(p) && cfg.transit
    ensures Tidy(Peers.Step(cfg, p, e))
  {
    hide Core, AllOk, QueueOk, WalkOk, OnInit, OnKeepalive, OnRequest, OnTimer, Forget, CheckAll, DrainPeer;
    hide Owing, NoStrayMarks, SendLinkTime;
    LaterCore(cfg, p, t, e.now);
    OkQueue(cfg, p, t);
    match e {
      case GotInit(long, walk, now) => OnInitTidy(cfg, p, long, walk, now);
      case GotKeepalive(len, term, up, echo, walk, now) => OnKeepaliveTidy(cfg, p, len, term, up, echo, walk, now);
      case GotLinkTime(up, now) => LinkTimeTidy(NoteEstablished(p, up), now);
      case Heard(up, now) =>
      case GotRequest(up, walk, now) => OnRequestTidy(cfg, p, up, walk, now);
      case Changed(walk, now) =>
        CheckAllTidy(cfg, p, walk, now);
        WalkKeepsQueue(cfg, p, walk, now);
        DrainTidy(cfg, CheckAll(cfg, p, walk, now).0, now);
      case Timer(beat, refresh, walk, now) => OnTimerTidy(cfg, p, beat, refresh, walk, now);
      case Restarted(now) => if p.quiesced { ForgetTidy(p, LinkRestarted(now)); }
      case Rehandshake(now) => if !p.Established() {
        var q := p.(sentRoutes := false);
        ItemTidy(q, InitSent(now));
        ItemTidy(SendInit(q, now), KeepaliveSent(now));
      }
    }
  }

  lemma {:induction false} RunsTidy(cfg: Config, p: Peer, t: int, es: seq<Event>)
    requires PeerOk(cfg, p, t) && t > 0 && Tidy(p) && cfg.transit && Runs(cfg, p, t, es).Some?
    ensures Tidy(Runs(cfg, p, t, es).value.0)
  {
    hide PeerOk, Tidy, Peers.Step, Feasible;
    if es != [] {
      var n := |es| - 1;
      RunsTidy(cfg, p, t, es[..n]);
      RunsKeep(cfg, p, t, es[..n]);
      var s := Runs(cfg, p, t, es[..n]).value;
      StepTidy(cfg, s.0, es[n], s.1);
    }
  }

  lemma {:induction false} StartedTidy(start: int, lastAdvert: int)
    ensures Tidy(Started(start, lastAdvert))
  {
    OwingSnoc([], InitSent(start));
    OwingSnoc([InitSent(start)], KeepaliveSent(start));
    assert [] + [InitSent(start)] == [InitSent(start)];
    assert [InitSent(start)] + [KeepaliveSent(start)] == Started(start, lastAdvert).out;
  }

  /** Over any session of a node with transit on, nothing closes a '3+' answer early:
      neither the 120 s refresh nor the initial advertisement puts its '3-' on the
      wire between the '3+' and the '3-' owed to it. */
  lemma {:induction false} AnswersStayWhole(cfg: Config, start: int, lastAdvert: int, es: seq<Event>)
    requires start > 0 && cfg.transit && SessionRun(cfg, start, lastAdvert, es).Some?
    ensures AnsweredInOnePiece(SessionRun(cfg, start, lastAdvert, es).value.0.out)
  {
    hide PeerOk, Runs, Owing, NoStrayMarks, AnsweredInOnePiece;
    StartedOk(cfg, start, lastAdvert);
    StartedTidy(start, lastAdvert);
    RunsTidy(cfg, Started(start, lastAdvert), start, es);
    NoStrayMarksMeansOnePiece(SessionRun(cfg, start, lastAdvert, es).value.0.out);
  }
}
