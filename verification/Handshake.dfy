/** When an INIT is answered in kind, over whole sessions: told from the events and from
  * what went out.
  */
module Handshake {
  import opened Advertise
  import opened Drain
  import opened CompactCodec
  import opened AdvRuns
  import opened Peers
  import opened PeerRuns

  /** The INITs sent, and the marks of those sent in answer. */
  function Inits(out: seq<Item>): seq<Item>
  {
    if out == [] then []
    else
      var x := out[|out| - 1];
      Inits(out[..|out| - 1]) + (if x.InitSent? || x.InitAnswered? then [x] else [])
  }

  /** Time of the last INIT sent, 0 if there is none. */
  function LastInitAt(out: seq<Item>): int
  {
    if out == [] then 0
    else if out[|out| - 1].InitSent? then out[|out| - 1].at else LastInitAt(out[..|out| - 1])
  }

  /** A sign of life that establishes the session: an INIT, or another frame while the
      link is connected. */
  predicate Hears(e: Event)
  {
    match e
    case GotInit(_, _, _) => true
    case GotKeepalive(_, _, up, _, _, _) => up
    case GotLinkTime(up, _) => up
    case Heard(up, _) => up
    case GotRequest(up, _, _) => up
    case _ => false
  }

  predicate HeardOf(es: seq<Event>) { exists i :: 0 <= i < |es| && Hears(es[i]) }

  lemma {:induction false} InitsSnoc(out: seq<Item>, x: Item)
    ensures Inits(out + [x]) == Inits(out) + (if x.InitSent? || x.InitAnswered? then [x] else [])
    ensures LastInitAt(out + [x]) == if x.InitSent? then x.at else LastInitAt(out)
  {
    assert (out + [x])[..|out|] == out;
  }

  /** No INIT goes out, and the handshake stands as it did. */
  predicate NoInit(p: Peer, r: Peer)
  {
    && Inits(r.out) == Inits(p.out) && LastInitAt(r.out) == LastInitAt(p.out)
    && r.lastInit == p.lastInit && r.gotInit == p.gotInit && r.inferred == p.inferred
  }

  lemma {:induction false} NoInitItem(p: Peer, x: Item)
    requires !x.InitSent? && !x.InitAnswered?
    ensures NoInit(p, p.(out := p.out + [x]))
  {
    hide Inits, LastInitAt;
    InitsSnoc(p.out, x);
    assert Inits(p.out) + [] == Inits(p.out);
  }

  lemma {:induction false} NoInitSends(out: seq<Item>, frames: seq<seq<Rec>>, now: int)
    ensures Inits(out + Sends(frames, now)) == Inits(out) && LastInitAt(out + Sends(frames, now)) == LastInitAt(out)
    decreases |frames|
  {
    hide Inits, LastInitAt;
    if frames == [] {
      assert out + Sends(frames, now) == out;
    } else {
      var n := |frames| - 1;
      NoInitSends(out, frames[..n], now);
      InitsSnoc(out + Sends(frames[..n], now), Records(frames[n], now));
      assert out + Sends(frames, now) == (out + Sends(frames[..n], now)) + [Records(frames[n], now)];
    }
  }

  lemma {:induction false} NoInitDrain(cfg: Config, p: Peer, now: int)
    requires AllOk(p.account.q.advs)
    ensures NoInit(p, DrainPeer(cfg, p, now))
  {
    hide Inits, LastInitAt, DrainOnce, AllOk, AfterDrain;
    if cfg.transit {
      var closed, pcf := !Allowed(cfg, p), p.Pcf();
      var d := DrainOnce(p.account.q, closed, pcf, now);
      var out := p.out + Sends(d.frames, now);
      NoInitSends(p.out, d.frames, now);
      InitsSnoc(out, Mark(now, true, pcf));
      assert out + [] == out;
    }
  }

  lemma {:induction false} NoInitCheckAll(cfg: Config, p: Peer, walk: Walk, now: int)
    requires AllOk(p.account.q.advs) && WalkOk(walk, now)
    ensures NoInit(p, CheckAll(cfg, p, walk, now).0)
    decreases |walk|
  {
    hide Inits, LastInitAt, AllOk, AfterCheck;
    if walk != [] { NoInitCheckAll(cfg, p, walk[..|walk| - 1], now); }
  }

  lemma {:induction false} NoInitSendOwn(p: Peer, deferMark: bool, now: int)
    ensures NoInit(p, SendOwn(p, deferMark, now))
  {
    hide Inits, LastInitAt;
    InitsSnoc(p.out, OwnRecord(now));
    InitsSnoc(p.out + [OwnRecord(now)], Mark(now, false, p.Pcf()));
    assert p.out + [OwnRecord(now)] + [] == p.out + [OwnRecord(now)];
  }

  lemma {:induction false} NoInitSeed(cfg: Config, p: Peer, walk: Walk, now: int)
    requires AllOk(p.account.q.advs) && WalkOk(walk, now)
    ensures NoInit(p, Seed(cfg, p, walk, now)) && NoInit(p, Neighbours(cfg, p, walk, now))
  {
    hide Inits, LastInitAt, AllOk, CheckAll, DrainPeer;
    NoInitCheckAll(cfg, p, walk, now);
    NoInitDrain(cfg, CheckAll(cfg, p, walk, now).0, now);
  }

  lemma {:induction false} NoInitIntroduce(cfg: Config, p: Peer, walk: Walk, now: int)
    requires AllOk(p.account.q.advs) && WalkOk(walk, now)
    ensures NoInit(p, Introduce(cfg, p, walk, now))
  {
    hide Inits, LastInitAt, AllOk, Seed, SendOwn;
    NoInitSendOwn(p, false, now);
    OwnKeepsTable(p, false, now);
    NoInitSeed(cfg, SendOwn(p, false, now).(sentRoutes := true), walk, now);
  }

  lemma {:induction false} OwnKeepsTable(p: Peer, deferMark: bool, now: int)
    ensures SendOwn(p, deferMark, now).account == p.account
  {
  }

  lemma {:induction false} NoInitLinkTime(p: Peer, now: int)
    ensures NoInit(p, SendLinkTime(p, now)) && NoInit(p, SendKeepalive(p, now))
    ensures SendLinkTime(p, now).account == p.account
  {
    hide Inits, LastInitAt;
    NoInitItem(p, LinkTimeSent(now));
    NoInitItem(p, KeepaliveSent(now));
  }

  lemma {:induction false} NoInitAnswer(cfg: Config, p: Peer, walk: Walk, now: int)
    requires AllOk(p.account.q.advs) && WalkOk(walk, now)
    ensures NoInit(p, Answer(cfg, p, walk, now))
  {
    hide Inits, LastInitAt, AllOk, CheckAll, DrainPeer;
    NoInitCheckAll(cfg, p, walk, now);
    var b := CheckAll(cfg, p, walk, now).0;
    NoInitDrain(cfg, b.(account := AdvRuns.After(b.account, Owe)), now);
  }

  lemma {:induction false} NoInitTimer(cfg: Config, p: Peer, beat: bool, refresh: Walk, walk: Walk, now: int)
    requires AllOk(p.account.q.advs) && WalkOk(refresh, now) && WalkOk(walk, now)
    ensures NoInit(p, OnTimer(cfg, p, beat, refresh, walk, now))
  {
    hide NoInit, AllOk, Introduce, Neighbours, DrainPeer, SendOwn, SendLinkTime;
    NoInitLinkTime(p, now);
    NoInitLinkTime(SendKeepalive(p, now), now);
    var p0 := if beat then SendLinkTime(SendKeepalive(p, now), now) else p;
    var q := p0.(lastAdvert := now);
    NoInitRefl(p, p);
    NoInitTwice(p, SendKeepalive(p, now), SendLinkTime(SendKeepalive(p, now), now));
    NoInitRefl(p0, q);
    NoInitSendOwn(q, false, now);
    OwnKeepsTable(q, false, now);
    NoInitSeed(cfg, SendOwn(q, false, now), refresh, now);
    NoInitTwice(p, p0, q);
    NoInitTwice(p, q, SendOwn(q, false, now));
    NoInitTwice(p, SendOwn(q, false, now), Neighbours(cfg, SendOwn(q, false, now), refresh, now));
    var due := cfg.transit && p0.sentRoutes && Allowed(cfg, p0) && !p0.account.q.eobPending &&
      now - p0.lastAdvert >= ADVERT_INTERVAL;
    var p1 := if due then Neighbours(cfg, SendOwn(q, false, now), refresh, now) else p0;
    NoInitIntroduce(cfg, p1, walk, now);
    NoInitTwice(p, p1, Introduce(cfg, p1, walk, now));
    var p2 := if cfg.transit && !p1.sentRoutes && p1.Established() then Introduce(cfg, p1, walk, now) else p1;
    NoInitDrain(cfg, p2, now);
    NoInitTwice(p, p2, DrainPeer(cfg, p2, now));
  }

  lemma {:induction false} NoInitRefl(p: Peer, r: Peer)
    requires r.out == p.out && r.lastInit == p.lastInit && r.gotInit == p.gotInit && r.inferred == p.inferred
    ensures NoInit(p, r)
  {
  }

  lemma {:induction false} NoInitTwice(p: Peer, q: Peer, r: Peer)
    ensures NoInit(p, q) && NoInit(q, r) ==> NoInit(p, r)
  {
  }

  // ----- one event

  /** Where the handshake stands: the stored time is that of the last INIT. */
  predicate InStep(p: Peer, t: int)
  {
    p.lastInit == LastInitAt(p.out) && 0 < p.lastInit <= t
  }

  /** Sixty seconds have passed since `last`, or the clock was set back; a time of 0
      stands for never. */
  predicate GuardOver(last: int, now: int) { last == 0 || now < last || now - last >= 60 }

  /** What a step adds to the INITs: an answer to an INIT that finds the session
      established and the guard over, or a fresh handshake of a session that is not
      established. */
  function NewInits(p: Peer, e: Event): seq<Item>
  {
    if e.GotInit? && p.Established() && GuardOver(LastInitAt(p.out), e.now) then [InitSent(e.now), InitAnswered(e.now)]
    else if e.Rehandshake? && !p.Established() then [InitSent(e.now)]
    else []
  }

  lemma {:induction false} RespondInits(cfg: Config, p: Peer, answers: bool, long: bool, walk: Walk, now: int)
    requires AllOk(p.account.q.advs) && WalkOk(walk, now)
    ensures var r := Respond(cfg, p, answers, long, walk, now);
            && Inits(r.out) == Inits(p.out) + (if answers then [InitSent(now), InitAnswered(now)] else [])
            && LastInitAt(r.out) == (if answers then now else LastInitAt(p.out))
            && r.lastInit == (if answers then now else p.lastInit)
            && r.gotInit == p.gotInit && r.inferred == p.inferred
  {
    hide Inits, LastInitAt, AllOk, Introduce;
    var p1 := GuessShape(p, long, now);
    NoInitLinkTime(p.(kaLen := KA_LEN_PCF, kaTerm := '\r'), now);
    assert NoInit(p, p1);
    var a := SendInit(p1, now);
    InitsSnoc(p1.out, InitSent(now));
    var b := SendKeepalive(a, now);
    InitsSnoc(a.out, KeepaliveSent(now));
    var c := Forget(b, InitAnswered(now));
    InitsSnoc(b.out, InitAnswered(now));
    assert Inits(p.out) + [InitSent(now)] + [] + [InitAnswered(now)] ==
      Inits(p.out) + [InitSent(now), InitAnswered(now)];
    assert Inits(p.out) + [] == Inits(p.out);
    var p2 := if answers then c else p1;
    NoInitIntroduce(cfg, p2, walk, now);
  }

  /** One event, at whatever time its clock shows. */
  lemma {:induction false} StepInits(cfg: Config, p: Peer, e: Event)
    requires Feasible(p, e) && p.lastInit == LastInitAt(p.out)
    ensures var r := Peers.Step(cfg, p, e);
            && Inits(r.out) == Inits(p.out) + NewInits(p, e)
            && r.lastInit == LastInitAt(r.out) == (if NewInits(p, e) == [] then p.lastInit else e.now)
            && (r.Established() <==> p.Established() || Hears(e))
  {
    hide Inits, LastInitAt, AllOk, WalkOk, Introduce, DrainPeer, CheckAll, Answer, OnTimer, Respond, SendOwn,
      SendLinkTime;
    assert Inits(p.out) + [] == Inits(p.out);
    match e {
      case GotInit(long, walk, now) => RespondInits(cfg, p.(gotInit := true), AnswersInit(p, now), long, walk, now);
      case GotKeepalive(len, term, up, echo, walk, now) => KeepaliveInits(cfg, p, len, term, up, echo, walk, now);
      case GotLinkTime(up, now) => NoInitLinkTime(NoteEstablished(p, up), now);
      case Heard(up, now) =>
      case GotRequest(up, walk, now) => RequestInits(cfg, p, up, walk, now);
      case Changed(walk, now) =>
        NoInitCheckAll(cfg, p, walk, now);
        NoInitDrain(cfg, CheckAll(cfg, p, walk, now).0, now);
      case Timer(beat, refresh, walk, now) => NoInitTimer(cfg, p, beat, refresh, walk, now);
      case Restarted(now) => NoInitItem(p, LinkRestarted(now));
      case Rehandshake(now) =>
        var a := SendInit(p.(sentRoutes := false), now);
        InitsSnoc(p.out, InitSent(now));
        NoInitLinkTime(a, now);
    }
  }

  lemma {:induction false} KeepaliveInits(cfg: Config, p: Peer, len: nat, term: char, up: bool, echo: bool, walk: Walk,
                                          now: int)
    requires AllOk(p.account.q.advs) && WalkOk(walk, now)
    ensures NoInit(NoteEstablished(p, up), OnKeepalive(cfg, p, len, term, up, echo, walk, now))
  {
    hide NoInit, AllOk, WalkOk, Introduce, SendLinkTime;
    var p1 := NoteEstablished(p, up);
    var p2 := if 2 <= len <= KA_LEN then p1.(kaLen := len, kaTerm := term) else p1;
    NoInitRefl(p1, p2);
    NoInitLinkTime(p2, now);
    var q := if echo then SendKeepalive(p2, now) else p2;
    NoInitTwice(p1, p2, SendKeepalive(p2, now));
    NoInitLinkTime(q, now);
    var p3 := SendLinkTime(q, now);
    NoInitTwice(p1, q, p3);
    NoInitIntroduce(cfg, p3, walk, now);
    NoInitTwice(p1, p3, Introduce(cfg, p3, walk, now));
  }

  lemma {:induction false} RequestInits(cfg: Config, p: Peer, up: bool, walk: Walk, now: int)
    requires AllOk(p.account.q.advs) && WalkOk(walk, now)
    ensures NoInit(NoteEstablished(p, up), OnRequest(cfg, p, up, walk, now))
  {
    hide NoInit, AllOk, WalkOk, SendOwn, Answer;
    var p1 := NoteEstablished(p, up);
    var a := p1.(out := p1.out + [Asked(now)]);
    var b := p1.(quiesced := false, out := p1.out + [Asked(now)]);
    NoInitItem(p1, Asked(now));
    NoInitRefl(a, b);
    NoInitTwice(p1, a, b);
    NoInitSendOwn(b, cfg.transit, now);
    OwnKeepsTable(b, cfg.transit, now);
    var p2 := SendOwn(b, cfg.transit, now);
    NoInitTwice(p1, b, p2);
    NoInitAnswer(cfg, p2, walk, now);
    var p3 := if cfg.transit then Answer(cfg, p2, walk, now) else p2;
    NoInitTwice(p1, p2, p3);
    NoInitRefl(p3, p3.(sentRoutes := true));
    NoInitTwice(p1, p3, p3.(sentRoutes := true));
  }

  // ----- whole sessions

  /** The INITs of a run, each in answer to another sixty seconds or more after the last
      one sent before it. */
  predicate Spaced(inits: seq<Item>)
  {
    forall i, j :: 0 <= i < j < |inits| && inits[i].InitAnswered? && inits[j].InitAnswered? ==>
      inits[j].at - inits[i].at >= 60
  }

  predicate NoLater(inits: seq<Item>, last: int)
  {
    forall i :: 0 <= i < |inits| ==> inits[i].at <= last
  }

  lemma {:induction false} RunInits(cfg: Config, start: int, lastAdvert: int, es: seq<Event>)
    requires start > 0 && SessionRun(cfg, start, lastAdvert, es).Some?
    ensures var s := SessionRun(cfg, start, lastAdvert, es).value;
            && InStep(s.0, s.1) && (s.0.Established() <==> HeardOf(es))
            && Spaced(Inits(s.0.out)) && NoLater(Inits(s.0.out), s.0.lastInit)
    decreases |es|
  {
    hide Peers.Step, CanHappen, Inits, LastInitAt;
    if es == [] {
      StartedInits(start, lastAdvert);
    } else {
      var n := |es| - 1;
      RunInits(cfg, start, lastAdvert, es[..n]);
      var s := SessionRun(cfg, start, lastAdvert, es[..n]).value;
      HappensNext(s.0, es[n], s.1);
      StepInits(cfg, s.0, es[n]);
      if HeardOf(es[..n]) {
        var i :| 0 <= i < n && Hears(es[..n][i]);
        assert Hears(es[i]);
      }
      if HeardOf(es) {
        var i :| 0 <= i < |es| && Hears(es[i]);
        assert i < n ==> Hears(es[..n][i]);
      }
    }
  }

  lemma {:induction false} HappensNext(p: Peer, e: Event, t: int)
    requires CanHappen(p, e, t)
    ensures Feasible(p, e) && e.now >= t
  {
  }

  lemma {:induction false} StartedInits(start: int, lastAdvert: int)
    requires start > 0
    ensures var p := Started(start, lastAdvert);
            InStep(p, start) && Inits(p.out) == [InitSent(start)] && !p.Established() && p.lastInit == start
  {
    hide Inits, LastInitAt;
    var out := Started(start, lastAdvert).out;
    InitsSnoc([], InitSent(start));
    InitsSnoc([InitSent(start)], KeepaliveSent(start));
    assert [] + [InitSent(start)] == [InitSent(start)] && [InitSent(start)] + [KeepaliveSent(start)] == out;
    assert Inits([]) == [] by { hide *; NoInits(); }
    assert [] + [InitSent(start)] + [] == [InitSent(start)];
  }

  lemma {:induction false} NoInits()
    ensures Inits([]) == []
  {
  }

  /** In any session an INIT is answered, with one of ours, exactly when the session was
      established before it by an earlier sign of life and our last INIT went out sixty
      seconds ago or earlier. */
  lemma {:induction false} AnsweredWhen(cfg: Config, start: int, lastAdvert: int, es: seq<Event>, long: bool,
                                        walk: Walk, now: int)
    requires start > 0 && SessionRun(cfg, start, lastAdvert, es).Some?
    requires var s := SessionRun(cfg, start, lastAdvert, es).value; CanHappen(s.0, GotInit(long, walk, now), s.1)
    ensures var p := SessionRun(cfg, start, lastAdvert, es).value.0;
            var r := Peers.Step(cfg, p, GotInit(long, walk, now));
            Inits(r.out) == Inits(p.out) +
              if HeardOf(es) && now - LastInitAt(p.out) >= 60 then [InitSent(now), InitAnswered(now)] else []
  {
    hide Peers.Step, CanHappen, Inits, LastInitAt;
    var s := SessionRun(cfg, start, lastAdvert, es).value;
    RunInits(cfg, start, lastAdvert, es);
    HappensNext(s.0, GotInit(long, walk, now), s.1);
    StepInits(cfg, s.0, GotInit(long, walk, now));
  }

  /** So two INITs sent in answer are sixty seconds apart or more, whatever happens in
      between: two nodes cannot keep answering each other. */
  lemma {:induction false} AnswersAreSpaced(cfg: Config, start: int, lastAdvert: int, es: seq<Event>)
    requires start > 0 && SessionRun(cfg, start, lastAdvert, es).Some?
    ensures var out := SessionRun(cfg, start, lastAdvert, es).value.0.out;
            forall i, j :: 0 <= i < j < |out| && out[i].InitAnswered? && out[j].InitAnswered? ==>
              out[j].at - out[i].at >= 60
  {
    RunInits(cfg, start, lastAdvert, es);
    SpacedOut(SessionRun(cfg, start, lastAdvert, es).value.0.out);
  }

  lemma {:induction false} SpacedOut(out: seq<Item>)
    requires Spaced(Inits(out))
    ensures forall i, j :: 0 <= i < j < |out| && out[i].InitAnswered? && out[j].InitAnswered? ==>
              out[j].at - out[i].at >= 60
  {
    if out != [] {
      var n := |out| - 1;
      var before := Inits(out[..n]);
      assert forall k :: 0 <= k < |before| ==> Inits(out)[k] == before[k];
      SpacedOut(out[..n]);
      if out[n].InitAnswered? {
        forall i | 0 <= i < n && out[i].InitAnswered? ensures out[n].at - out[i].at >= 60 {
          var k := InitAt(out[..n], i);
          assert Inits(out)[k] == out[i] && Inits(out)[|before|] == out[n];
        }
      }
      forall i, j | 0 <= i < j < |out| && out[i].InitAnswered? && out[j].InitAnswered?
        ensures out[j].at - out[i].at >= 60
      {
        assert j < n ==> out[..n][i] == out[i] && out[..n][j] == out[j];
      }
    }
  }

  lemma {:induction false} InitAt(out: seq<Item>, i: nat) returns (k: nat)
    requires i < |out| && out[i].InitAnswered?
    ensures k < |Inits(out)| && Inits(out)[k] == out[i]
  {
    var n := |out| - 1;
    if i == n { k := |Inits(out[..n])|; } else { k := InitAt(out[..n], i); }
  }
}
