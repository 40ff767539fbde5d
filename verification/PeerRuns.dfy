/** Whole sessions with a neighbour: after a '3-' that closes a PC/Flexnet exchange
  * nothing more is advertised until the neighbour reopens it.
  */
module PeerRuns {
  import opened Base
  import opened World
  import opened Advertise
  import opened CompactCodec
  import opened Drain
  import opened AdvRuns
  import opened Peers

  /** A compact record frame, ours or of learned destinations. */
  predicate Compact(x: Item) { x.OwnRecord? || x.Records? }

  /** The '3-' owed to a PC/Flexnet neighbour's '3+'. */
  predicate Closes(x: Item) { x.Mark? && x.owed && x.pcf }

  predicate Reopens(x: Item) { x.Asked? || x.InitAnswered? || x.LinkRestarted? }

  /** Every compact frame after a closing '3-' has a reopening event in between. */
  predicate QuietAfterMark(out: seq<Item>)
  {
    forall i, j :: 0 <= i < j < |out| && Closes(out[i]) && Compact(out[j]) ==> exists k :: i < k < j && Reopens(out[k])
  }

  /** Two refill intervals. */
  function Silence(pcf: bool): int { if pcf then 10 else 4 }

  /** An owed '3-' follows the last drained record frame by two refill intervals. */
  predicate MarkAfterSilence(out: seq<Item>)
  {
    forall i, j :: 0 <= i < j < |out| && out[i].Records? && out[j].Mark? && out[j].owed ==>
      out[j].at - out[i].at >= Silence(out[j].pcf)
  }

  // ----- the trace as it grows

  /** The last closing '3-' has not been followed by a reopening event. */
  predicate Shut(out: seq<Item>)
  {
    out != [] && (Closes(out[|out| - 1]) || (!Reopens(out[|out| - 1]) && Shut(out[..|out| - 1])))
  }

  predicate RecordsUpTo(out: seq<Item>, t: int) { forall i :: 0 <= i < |out| && out[i].Records? ==> out[i].at <= t }

  predicate OpenWhenSent(out: seq<Item>) { forall j :: 0 <= j < |out| && Compact(out[j]) ==> !Shut(out[..j]) }

  predicate TraceOk(quiesce: bool, out: seq<Item>)
  {
    (quiesce ==> OpenWhenSent(out)) && MarkAfterSilence(out)
  }

  lemma {:induction false} ShutSnoc(out: seq<Item>, x: Item)
    ensures Shut(out + [x]) == (Closes(x) || (!Reopens(x) && Shut(out)))
  {
    assert (out + [x])[..|out|] == out;
  }

  lemma {:induction false} AppendItem(quiesce: bool, out: seq<Item>, x: Item)
    requires TraceOk(quiesce, out)
    requires quiesce && Compact(x) ==> !Shut(out)
    requires x.Mark? && x.owed ==> RecordsUpTo(out, x.at - Silence(x.pcf))
    ensures TraceOk(quiesce, out + [x])
  {
    hide Shut, Silence;
    var r := out + [x];
    forall j | 0 <= j < |r| && quiesce && Compact(r[j]) ensures !Shut(r[..j]) {
      assert r[..j] == out[..j];
      if j == |out| { assert out[..j] == out; }
    }
  }

  lemma {:induction false} ShutWithoutReopening(out: seq<Item>, i: nat)
    requires i < |out| && Closes(out[i]) && forall k :: i < k < |out| ==> !Reopens(out[k])
    ensures Shut(out)
  {
    var n := |out| - 1;
    if i < n {
      assert forall k :: i < k < n ==> out[..n][k] == out[k];
      ShutWithoutReopening(out[..n], i);
    }
  }

  lemma {:induction false} OpenTraceIsQuiet(out: seq<Item>)
    requires OpenWhenSent(out)
    ensures QuietAfterMark(out)
  {
    hide Shut;
    forall i, j | 0 <= i < j < |out| && Closes(out[i]) && Compact(out[j])
      ensures exists k :: i < k < j && Reopens(out[k])
    {
      if forall k :: i < k < j ==> !Reopens(out[k]) {
        assert forall k :: 0 <= k < j ==> out[..j][k] == out[k];
        ShutWithoutReopening(out[..j], i);
      }
    }
  }

  // ----- what every event keeps

  predicate SilenceKept(q: Queue, out: seq<Item>) { q.eobPending && q.eobSince != 0 ==> RecordsUpTo(out, q.eobSince) }

  predicate Core(cfg: Config, p: Peer, t: int)
  {
    && AccountOk(p.account, t)
    && TraceOk(cfg.quiesce, p.out)
    && RecordsUpTo(p.out, t)
    && SilenceKept(p.account.q, p.out)
    && (cfg.quiesce && Shut(p.out) ==> p.quiesced)
  }

  /** A closed or closing exchange belongs to an established session whose table has
      been sent. */
  predicate Settled(p: Peer) { p.quiesced || p.account.q.eobPending ==> p.Established() && p.sentRoutes }

  predicate PeerOk(cfg: Config, p: Peer, t: int) { Core(cfg, p, t) && Settled(p) }

  lemma {:induction false} CoreTable(cfg: Config, p: Peer, t: int)
    requires Core(cfg, p, t)
    ensures AllOk(p.account.q.advs)
  {
  }

  lemma {:induction false} LaterCore(cfg: Config, p: Peer, t: int, u: int)
    requires Core(cfg, p, t) && t <= u
    ensures Core(cfg, p, u)
  {
    hide AccountOk, TraceOk, Shut, SilenceKept;
    LaterAccountOk(p.account, t, u);
  }

  /** `q` differs from `p` in its table and trace only, and owes nothing new. */
  predicate SameSession(p: Peer, q: Peer)
  {
    && q.sentRoutes == p.sentRoutes && q.gotInit == p.gotInit && q.inferred == p.inferred
    && (q.quiesced || q.account.q.eobPending ==> p.quiesced || p.account.q.eobPending)
  }

  lemma {:induction false} CheckPeerKeeps(cfg: Config, p: Peer, key: Key, c: Case)
    requires Core(cfg, p, c.now) && Sound(c) && KeyOk(key) && AllOk(p.account.q.advs)
    ensures var r := CheckPeer(cfg, p, key, c);
            Core(cfg, r, c.now) && SameSession(p, r) && r.quiesced == p.quiesced && r.out == p.out
  {
    hide AccountOk, TraceOk, Shut, RecordsUpTo, Checked, DirectAfter, MayCheck, Sound, KeyOk, AllOk;
    if MayCheck(cfg, p, key) { CheckKeepsAccount(p.account, key, c, c.now); }
  }

  lemma {:induction false} CheckAllKeeps(cfg: Config, p: Peer, walk: Walk, now: int)
    requires Core(cfg, p, now) && WalkOk(walk, now) && AllOk(p.account.q.advs)
    ensures var r := CheckAll(cfg, p, walk, now).0;
            Core(cfg, r, now) && SameSession(p, r) && r.quiesced == p.quiesced && r.out == p.out
    decreases |walk|
  {
    hide Core, CheckPeer, Sound, KeyOk, IsQueued, AllOk;
    if walk != [] {
      var n := |walk| - 1;
      CheckAllKeeps(cfg, p, walk[..n], now);
      CheckPeerKeeps(cfg, CheckAll(cfg, p, walk[..n], now).0, walk[n].0, walk[n].1);
    }
  }

  /** When the mark may go out, and what the mark's clock says about records sent. */
  lemma {:induction false} DrainAndMark(q: Queue, closed: bool, pcf: bool, now: int)
    requires QueueOk(q) && now > 0
    ensures var d := DrainOnce(q, closed, pcf, now);
            && (closed ==> d.frames == [])
            && (d.q.eobPending ==> q.eobPending)
            && (d.q.eobPending && d.q.eobSince != 0 ==>
                 d.frames == [] && (d.q.eobSince == q.eobSince || d.q.eobSince == now))
            && (d.eob ==> d.frames == [] && q.eobPending && q.eobSince != 0 && !AnyQueued(d.q.advs)
                          && now - q.eobSince >= Silence(pcf))
  {
    hide Frames, Emitted, AnyQueued, Refilled, RefillSeconds, AllOk;
    DrainConserves(q, closed, pcf, now);
  }

  lemma {:induction false} SendFrames(quiesce: bool, out: seq<Item>, frames: seq<seq<Rec>>, now: int)
    requires TraceOk(quiesce, out) && RecordsUpTo(out, now) && (quiesce && frames != [] ==> !Shut(out))
    ensures var r := out + Sends(frames, now);
            TraceOk(quiesce, r) && RecordsUpTo(r, now) && Shut(r) == Shut(out)
  {
    hide TraceOk, Shut;
    if frames == [] {
      assert out + Sends(frames, now) == out;
    } else {
      var n := |frames| - 1;
      SendFrames(quiesce, out, frames[..n], now);
      var r := out + Sends(frames[..n], now);
      ShutSnoc(r, Records(frames[n], now));
      AppendItem(quiesce, r, Records(frames[n], now));
      assert out + Sends(frames, now) == r + [Records(frames[n], now)];
    }
  }

  lemma {:induction false} DrainPeerKeeps(cfg: Config, p: Peer, now: int)
    requires Core(cfg, p, now) && now > 0 && AllOk(p.account.q.advs)
    ensures var r := DrainPeer(cfg, p, now); Core(cfg, r, now) && SameSession(p, r)
  {
    hide AllOk, AccountOk, TraceOk, Shut, DrainOnce, RefillSeconds, AnyQueued;
    if cfg.transit {
      var closed, pcf := !Allowed(cfg, p), p.Pcf();
      var d := DrainOnce(p.account.q, closed, pcf, now);
      AccountQueue(p.account, now);
      DrainKeepsAccount(p.account, closed, pcf, now, now);
      DrainAndMark(p.account.q, closed, pcf, now);
      DrainedTrace(cfg, p, d, now);
    }
  }

  /** The frames of a drain, then the mark if it is due. */
  lemma {:induction false} DrainedTrace(cfg: Config, p: Peer, d: Drained, now: int)
    requires TraceOk(cfg.quiesce, p.out) && RecordsUpTo(p.out, now) && (cfg.quiesce && Shut(p.out) ==> p.quiesced)
    requires !Allowed(cfg, p) ==> d.frames == []
    requires d.eob ==> d.frames == [] && RecordsUpTo(p.out, now - Silence(p.Pcf()))
    ensures var r := p.out + Sends(d.frames, now) + (if d.eob then [Mark(now, true, p.Pcf())] else []);
            && TraceOk(cfg.quiesce, r) && RecordsUpTo(r, now)
            && (cfg.quiesce && Shut(r) ==> p.quiesced || (d.eob && p.Pcf()))
            && (d.frames == [] ==> forall t :: RecordsUpTo(p.out, t) ==> RecordsUpTo(r, t))
  {
    hide TraceOk, Shut, Silence;
    SendFrames(cfg.quiesce, p.out, d.frames, now);
    var mid, mark := p.out + Sends(d.frames, now), Mark(now, true, p.Pcf());
    if d.eob {
      assert mid == p.out;
      AppendItem(cfg.quiesce, mid, mark);
      ShutSnoc(mid, mark);
    } else {
      assert mid + [] == mid;
      assert d.frames == [] ==> mid == p.out;
    }
  }

  lemma {:induction false} AccountQueue(a: Account, t: int)
    requires AccountOk(a, t)
    ensures QueueOk(a.q)
  {
  }

  lemma {:induction false} SendOwnKeeps(cfg: Config, p: Peer, deferMark: bool, now: int)
    requires Core(cfg, p, now) && (cfg.quiesce ==> !Shut(p.out))
    ensures var r := SendOwn(p, deferMark, now);
            Core(cfg, r, now) && SameSession(p, r) && r.account == p.account && r.quiesced == p.quiesced
  {
    hide AccountOk, TraceOk, Shut;
    var own, mark := OwnRecord(now), Mark(now, false, p.Pcf());
    AppendItem(cfg.quiesce, p.out, own);
    ShutSnoc(p.out, own);
    AppendItem(cfg.quiesce, p.out + [own], mark);
    ShutSnoc(p.out + [own], mark);
    assert p.out + [own] + [] == p.out + [own];
  }

  /** Handshake frames and reopening events say nothing about routes. */
  predicate Plain(x: Item) { !Compact(x) && !x.Mark? }

  lemma {:induction false} PlainItemKeeps(cfg: Config, p: Peer, x: Item, t: int)
    requires Core(cfg, p, t) && Plain(x)
    ensures var r := p.(out := p.out + [x]); Core(cfg, r, t) && (Reopens(x) ==> !Shut(r.out))
  {
    hide AccountOk, TraceOk, Shut;
    AppendItem(cfg.quiesce, p.out, x);
    ShutSnoc(p.out, x);
  }

  lemma {:induction false} LinkTimeKeeps(cfg: Config, p: Peer, now: int)
    requires Core(cfg, p, now)
    ensures var r := SendLinkTime(p, now);
            Core(cfg, r, now) && SameSession(p, r) && r.account == p.account && r.quiesced == p.quiesced
  {
    hide AccountOk, TraceOk, Shut;
    PlainItemKeeps(cfg, p, LinkTimeSent(now), now);
  }

  /** A keepalive and a link time, if they are due. */
  lemma {:induction false} BeatKeeps(cfg: Config, p: Peer, beat: bool, now: int)
    requires Core(cfg, p, now)
    ensures var q := if beat then SendKeepalive(p, now) else p; var r := SendLinkTime(q, now);
            && Core(cfg, q, now) && SameSession(p, q) && q.account == p.account && q.quiesced == p.quiesced
            && Core(cfg, r, now) && SameSession(p, r) && r.account == p.account && r.quiesced == p.quiesced
  {
    hide AccountOk, TraceOk, Shut, SendLinkTime, RecordsUpTo, SilenceKept;
    PlainItemKeeps(cfg, p, KeepaliveSent(now), now);
    LinkTimeKeeps(cfg, if beat then SendKeepalive(p, now) else p, now);
  }

  lemma {:induction false} OpenIfAllowed(cfg: Config, p: Peer, t: int)
    requires Core(cfg, p, t) && Allowed(cfg, p)
    ensures cfg.quiesce ==> !Shut(p.out)
  {
  }

  lemma {:induction false} SeedKeeps(cfg: Config, p: Peer, walk: Walk, now: int)
    requires Core(cfg, p, now) && now > 0 && AllOk(p.account.q.advs) && WalkOk(walk, now)
    ensures Core(cfg, Seed(cfg, p, walk, now), now) && SameSession(p, Seed(cfg, p, walk, now))
    ensures Core(cfg, Neighbours(cfg, p, walk, now), now) && SameSession(p, Neighbours(cfg, p, walk, now))
  {
    hide AccountOk, TraceOk, Shut, CheckAll, DrainPeer, AllOk, WalkOk, RecordsUpTo, SilenceKept;
    CheckAllKeeps(cfg, p, walk, now);
    var b := CheckAll(cfg, p, walk, now).0;
    DrainPeerKeeps(cfg, b, now);
  }

  lemma {:induction false} IntroduceKeeps(cfg: Config, p: Peer, walk: Walk, now: int)
    requires Core(cfg, p, now) && now > 0 && AllOk(p.account.q.advs) && WalkOk(walk, now)
    requires !p.quiesced && !p.account.q.eobPending
    ensures PeerOk(cfg, Introduce(cfg, p, walk, now), now)
  {
    hide AccountOk, TraceOk, Shut, Seed, SendOwn, AllOk, WalkOk, RecordsUpTo, SilenceKept;
    OpenIfAllowed(cfg, p, now);
    SendOwnKeeps(cfg, p, false, now);
    SeedKeeps(cfg, SendOwn(p, false, now).(sentRoutes := true), walk, now);
  }

  lemma {:induction false} ForgetKeeps(cfg: Config, p: Peer, why: Item, now: int)
    requires Core(cfg, p, now) && Plain(why) && Reopens(why)
    ensures PeerOk(cfg, Forget(p, why), now)
  {
    hide TraceOk, Shut;
    PlainItemKeeps(cfg, p, why, now);
    EmptyAccountOk(now);
  }

  // ----- the events

  lemma {:induction false} OnInitKeeps(cfg: Config, p: Peer, long: bool, walk: Walk, now: int)
    requires PeerOk(cfg, p, now) && now > 0 && AllOk(p.account.q.advs) && WalkOk(walk, now)
    ensures PeerOk(cfg, OnInit(cfg, p, long, walk, now), now)
  {
    hide Core, Introduce, Forget, AllOk, WalkOk;
    FlagsKeep(cfg, p, p.(gotInit := true), now);
    GuessShapeKeeps(cfg, p.(gotInit := true), long, now);
    var p1 := GuessShape(p.(gotInit := true), long, now);
    var p2 := p1;
    if AnswersInit(p, now) {
      HandshakeKeeps(cfg, p1, now);
      var s := SendKeepalive(SendInit(p1, now), now);
      ForgetKeeps(cfg, s, InitAnswered(now), now);
      p2 := Forget(s, InitAnswered(now));
      CoreTable(cfg, p2, now);
      Forgotten(s, InitAnswered(now));
    }
    if !p2.sentRoutes {
      IntroduceKeeps(cfg, p2, walk, now);
    }
  }

  lemma {:induction false} Forgotten(p: Peer, why: Item)
    ensures var r := Forget(p, why); !r.quiesced && !r.account.q.eobPending && !r.sentRoutes
  {
  }

  lemma {:induction false} GuessShapeKeeps(cfg: Config, p: Peer, long: bool, now: int)
    requires Core(cfg, p, now)
    ensures var r := GuessShape(p, long, now); Core(cfg, r, now) && SameSession(p, r) && r.account == p.account
  {
    hide AccountOk, TraceOk, Shut;
    PlainItemKeeps(cfg, p, KeepaliveSent(now), now);
  }

  lemma {:induction false} HandshakeKeeps(cfg: Config, p: Peer, now: int)
    requires Core(cfg, p, now)
    ensures Core(cfg, SendKeepalive(SendInit(p, now), now), now)
  {
    hide AccountOk, TraceOk, Shut;
    PlainItemKeeps(cfg, p, InitSent(now), now);
    var q := SendInit(p, now);
    assert Core(cfg, q, now);
    PlainItemKeeps(cfg, q, KeepaliveSent(now), now);
  }

  lemma {:induction false} OnKeepaliveKeeps(cfg: Config, p: Peer, len: nat, term: char, up: bool, echo: bool,
                                            walk: Walk, now: int)
    requires PeerOk(cfg, p, now) && now > 0 && AllOk(p.account.q.advs) && WalkOk(walk, now)
    ensures PeerOk(cfg, OnKeepalive(cfg, p, len, term, up, echo, walk, now), now)
  {
    hide AccountOk, TraceOk, Shut, Introduce, AllOk, WalkOk, SendLinkTime;
    var p1 := NoteEstablished(p, up);
    var p2 := if 2 <= len <= KA_LEN then p1.(kaLen := len, kaTerm := term) else p1;
    assert Core(cfg, p2, now);
    BeatKeeps(cfg, p2, echo, now);
    var p3 := SendLinkTime(if echo then SendKeepalive(p2, now) else p2, now);
    if !p3.sentRoutes && p3.Established() {
      IntroduceKeeps(cfg, p3, walk, now);
    }
  }

  lemma {:induction false} AnswerKeeps(cfg: Config, p: Peer, walk: Walk, now: int)
    requires Core(cfg, p, now) && now > 0 && AllOk(p.account.q.advs) && WalkOk(walk, now)
    ensures var r := Answer(cfg, p, walk, now);
            Core(cfg, r, now) && r.gotInit == p.gotInit && r.inferred == p.inferred
  {
    hide TraceOk, Shut, CheckAll, DrainPeer, AllOk, TableOk, LogOk;
    CheckAllKeeps(cfg, p, walk, now);
    var b := CheckAll(cfg, p, walk, now).0;
    var c := b.(account := After(b.account, Owe));
    assert Core(cfg, c, now);
    DrainPeerKeeps(cfg, c, now);
  }

  /** A '3+' that arrives while its link is connected, or after establishment,
      leaves the session settled. */
  lemma {:induction false} OnRequestKeeps(cfg: Config, p: Peer, up: bool, walk: Walk, now: int)
    requires PeerOk(cfg, p, now) && now > 0 && AllOk(p.account.q.advs) && WalkOk(walk, now)
    requires up || p.Established()
    ensures PeerOk(cfg, OnRequest(cfg, p, up, walk, now), now)
  {
    hide AccountOk, TraceOk, Shut, Answer, SendOwn, AllOk, WalkOk;
    var p1 := NoteEstablished(p, up);
    assert Core(cfg, p1, now);
    PlainItemKeeps(cfg, p1, Asked(now), now);
    var a := p1.(quiesced := false, out := p1.out + [Asked(now)]);
    assert Core(cfg, a, now);
    SendOwnKeeps(cfg, a, cfg.transit, now);
    if cfg.transit {
      AnswerKeeps(cfg, SendOwn(a, cfg.transit, now), walk, now);
    }
  }

  lemma {:induction false} OnTimerKeeps(cfg: Config, p: Peer, beat: bool, refresh: Walk, walk: Walk, now: int)
    requires PeerOk(cfg, p, now) && now > 0 && AllOk(p.account.q.advs) && WalkOk(refresh, now) && WalkOk(walk, now)
    ensures PeerOk(cfg, OnTimer(cfg, p, beat, refresh, walk, now), now)
  {
    hide AccountOk, TraceOk, Shut, Introduce, Neighbours, DrainPeer, AllOk, WalkOk, SendLinkTime;
    BeatKeeps(cfg, p, true, now);
    var p0 := if beat then SendLinkTime(SendKeepalive(p, now), now) else p;
    assert PeerOk(cfg, p0, now);
    var due := cfg.transit && p0.sentRoutes && Allowed(cfg, p0) && !p0.account.q.eobPending &&
      now - p0.lastAdvert >= ADVERT_INTERVAL;
    var p1 := p0;
    if due {
      RefreshKeeps(cfg, p0, refresh, now);
      p1 := Neighbours(cfg, SendOwn(p0.(lastAdvert := now), false, now), refresh, now);
    }
    var p2 := p1;
    if cfg.transit && !p1.sentRoutes && p1.Established() {
      IntroduceKeeps(cfg, p1, walk, now);
      p2 := Introduce(cfg, p1, walk, now);
    }
    DrainPeerKeeps(cfg, p2, now);
  }

  lemma {:induction false} RefreshKeeps(cfg: Config, p: Peer, refresh: Walk, now: int)
    requires PeerOk(cfg, p, now) && now > 0 && AllOk(p.account.q.advs) && WalkOk(refresh, now) && Allowed(cfg, p)
    ensures PeerOk(cfg, Neighbours(cfg, SendOwn(p.(lastAdvert := now), false, now), refresh, now), now)
  {
    hide AccountOk, TraceOk, Shut, Neighbours, SendOwn, AllOk, WalkOk, RecordsUpTo, SilenceKept;
    var q := p.(lastAdvert := now);
    OpenIfAllowed(cfg, q, now);
    SendOwnKeeps(cfg, q, false, now);
    SeedKeeps(cfg, SendOwn(q, false, now), refresh, now);
  }

  // ----- whole sessions

  /** Frames are taken from connected links only: the link layer hands them over from
      links in state 5 and above (L2Code.c:2199-2207), the states that count as
      connected when the session is inferred (FlexNetCode.c:871-874). */
  predicate CanHappen(p: Peer, e: Event, t: int)
  {
    && Feasible(p, e) && e.now >= t
    && (e.GotRequest? ==> e.up || p.Established())
  }

  lemma {:induction false} StepKeeps(cfg: Config, p: Peer, e: Event, t: int)
    requires PeerOk(cfg, p, t) && CanHappen(p, e, t) && t > 0
    ensures PeerOk(cfg, Step(cfg, p, e), e.now)
  {
    hide Core, OnInit, OnKeepalive, OnRequest, OnTimer, Forget, CheckAll, DrainPeer, WalkOk, AllOk, SendLinkTime;
    LaterCore(cfg, p, t, e.now);
    CoreTable(cfg, p, t);
    match e {
      case GotInit(long, walk, now) => OnInitKeeps(cfg, p, long, walk, now);
      case GotKeepalive(len, term, up, echo, walk, now) => OnKeepaliveKeeps(cfg, p, len, term, up, echo, walk, now);
      case GotLinkTime(up, now) =>
        FlagsKeep(cfg, p, NoteEstablished(p, up), now);
        LinkTimeKeeps(cfg, NoteEstablished(p, up), now);
      case Heard(up, now) => FlagsKeep(cfg, p, NoteEstablished(p, up), now);
      case GotRequest(up, walk, now) => OnRequestKeeps(cfg, p, up, walk, now);
      case Changed(walk, now) =>
        CheckAllKeeps(cfg, p, walk, now);
        DrainPeerKeeps(cfg, CheckAll(cfg, p, walk, now).0, now);
      case Timer(beat, refresh, walk, now) => OnTimerKeeps(cfg, p, beat, refresh, walk, now);
      case Restarted(now) => if p.quiesced { ForgetKeeps(cfg, p, LinkRestarted(now), now); }
      case Rehandshake(now) => if !p.Established() {
        FlagsKeep(cfg, p, p.(sentRoutes := false), now);
        HandshakeKeeps(cfg, p.(sentRoutes := false), now);
      }
    }
  }

  /** The handshake flags do not enter into what has been sent. */
  lemma {:induction false} FlagsKeep(cfg: Config, p: Peer, q: Peer, t: int)
    requires Core(cfg, p, t) && q.account == p.account && q.out == p.out && q.quiesced == p.quiesced
    ensures Core(cfg, q, t)
  {
  }

  /** The session after a run of events from `p` at time `t`, and the time then; None
      once an event cannot happen. */
  function Runs(cfg: Config, p: Peer, t: int, es: seq<Event>): Option<(Peer, int)>
  {
    if es == [] then Some((p, t))
    else
      var n := |es| - 1;
      match Runs(cfg, p, t, es[..n])
      case None => None
      case Some(s) => if CanHappen(s.0, es[n], s.1) then Some((Step(cfg, s.0, es[n]), es[n].now)) else None
  }

  /** A session from its start. */
  function SessionRun(cfg: Config, start: int, lastAdvert: int, es: seq<Event>): Option<(Peer, int)>
  {
    Runs(cfg, Started(start, lastAdvert), start, es)
  }

  lemma {:induction false} RunsKeep(cfg: Config, p: Peer, t: int, es: seq<Event>)
    requires PeerOk(cfg, p, t) && t > 0 && Runs(cfg, p, t, es).Some?
    ensures var s := Runs(cfg, p, t, es).value; PeerOk(cfg, s.0, s.1) && s.1 >= t
  {
    hide PeerOk, Step, Feasible;
    if es != [] {
      var n := |es| - 1;
      RunsKeep(cfg, p, t, es[..n]);
      var s := Runs(cfg, p, t, es[..n]).value;
      StepKeeps(cfg, s.0, es[n], s.1);
    }
  }

  lemma {:induction false} SessionKeeps(cfg: Config, start: int, lastAdvert: int, es: seq<Event>)
    requires start > 0 && SessionRun(cfg, start, lastAdvert, es).Some?
    ensures var s := SessionRun(cfg, start, lastAdvert, es).value; PeerOk(cfg, s.0, s.1) && s.1 >= start
  {
    hide PeerOk, Runs;
    StartedOk(cfg, start, lastAdvert);
    RunsKeep(cfg, Started(start, lastAdvert), start, es);
  }

  lemma {:induction false} StartedOk(cfg: Config, start: int, lastAdvert: int)
    ensures PeerOk(cfg, Started(start, lastAdvert), start)
  {
    EmptyAccountOk(start);
    var out := [InitSent(start)];
    ShutSnoc([], out[0]);
    assert [] + [out[0]] == out && !Shut([]);
    ShutSnoc(out, KeepaliveSent(start));
    assert out + [KeepaliveSent(start)] == Started(start, lastAdvert).out;
  }

  /** Quiesce safety. Over any session with any neighbour: once the '3-' owed to a
      PC/Flexnet neighbour has gone out, no compact frame follows, neither our own
      record nor a learned one, from the drain, the 120 s refresh, the initial
      advertisement or the handshake, until the neighbour asks again, its INIT is
      answered, or its link restarts. An owed '3-' goes out only two refill
      intervals after the last drained record frame. */
  lemma {:induction false} QuietOnceAnswered(cfg: Config, start: int, lastAdvert: int, es: seq<Event>)
    requires start > 0 && SessionRun(cfg, start, lastAdvert, es).Some?
    ensures var p := SessionRun(cfg, start, lastAdvert, es).value.0;
            && (cfg.quiesce ==> QuietAfterMark(p.out))
            && MarkAfterSilence(p.out)
  {
    hide AccountOk, Shut, RecordsUpTo, Step;
    SessionKeeps(cfg, start, lastAdvert, es);
    var p := SessionRun(cfg, start, lastAdvert, es).value.0;
    if cfg.quiesce { OpenTraceIsQuiet(p.out); }
  }
}
