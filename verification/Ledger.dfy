/** Whole sessions, counted: the history of records is what the frames carried, and
  * the frames keep to the bucket.
  */
module Ledger {
  import opened World
  import opened Advertise
  import opened CompactCodec
  import opened Drain
  import opened AdvRuns
  import opened Peers
  import opened PeerRuns

  /** A record as its frame carried it. */
  datatype Entry = Entry(key: Key, cost: int, at: int)

  function FrameEntries(rs: seq<Rec>, at: int): (r: seq<Entry>)
    ensures |r| == |rs| && forall i :: 0 <= i < |rs| ==> r[i] == Entry(KeyOf(rs[i]), rs[i].cost, at)
  {
    seq(|rs|, i requires 0 <= i < |rs| => Entry(KeyOf(rs[i]), rs[i].cost, at))
  }

  /** Records in the drained frames since the neighbour's table was last cleared. */
  function Carried(out: seq<Item>): seq<Entry>
  {
    if out == [] then []
    else
      var x := out[|out| - 1];
      if x.InitAnswered? || x.LinkRestarted? then []
      else if x.Records? then Carried(out[..|out| - 1]) + FrameEntries(x.recs, x.at)
      else Carried(out[..|out| - 1])
  }

  function Plainly(log: seq<Sent>): (r: seq<Entry>)
    ensures |r| == |log| && forall i :: 0 <= i < |log| ==> r[i] == Entry(log[i].key, log[i].cost, log[i].at)
  {
    seq(|log|, i requires 0 <= i < |log| => Entry(log[i].key, log[i].cost, log[i].at))
  }

  predicate Logged(p: Peer) { Plainly(p.account.log) == Carried(p.out) }

  /** Drained record frames. */
  function RecordFrames(out: seq<Item>): nat
  {
    if out == [] then 0 else RecordFrames(out[..|out| - 1]) + (if out[|out| - 1].Records? then 1 else 0)
  }

  lemma {:induction false} Snoc(out: seq<Item>, x: Item)
    ensures RecordFrames(out + [x]) == RecordFrames(out) + (if x.Records? then 1 else 0)
    ensures Carried(out + [x]) ==
            if x.InitAnswered? || x.LinkRestarted? then []
            else if x.Records? then Carried(out) + FrameEntries(x.recs, x.at) else Carried(out)
  {
    assert (out + [x])[..|out|] == out;
  }

  /** From `p` to `r` the history stays true to the frames, and every frame was paid
      for, as long as the bucket is that of family `pcf`. */
  predicate Fair(p: Peer, r: Peer, pcf: bool, now: int)
  {
    && (Logged(p) ==> Logged(r))
    && (QueueOk(p.account.q) ==> QueueOk(r.account.q))
    && (BucketOk(p.account.q, pcf, now) ==>
          && BucketOk(r.account.q, pcf, now)
          && RecordFrames(r.out) as real + Credit(r.account.q, pcf, now) <=
               RecordFrames(p.out) as real + Credit(p.account.q, pcf, now))
  }

  /** Nothing sent, nothing spent. */
  lemma {:induction false} FairUntouched(p: Peer, r: Peer, pcf: bool, now: int)
    requires r.account.log == p.account.log && r.out == p.out
    requires r.account.q.tokens == p.account.q.tokens && r.account.q.lastRefill == p.account.q.lastRefill
    requires QueueOk(p.account.q) ==> QueueOk(r.account.q)
    ensures Fair(p, r, pcf, now)
  {
    hide Carried, RecordFrames;
  }

  lemma {:induction false} FairItem(p: Peer, x: Item, pcf: bool, now: int)
    requires !x.Records? && !x.InitAnswered? && !x.LinkRestarted?
    ensures Fair(p, p.(out := p.out + [x]), pcf, now)
  {
    hide Carried, RecordFrames, Credit, BucketOk;
    Snoc(p.out, x);
  }

  lemma {:induction false} FairTwice(p: Peer, q: Peer, r: Peer, pcf: bool, now: int)
    requires Fair(p, q, pcf, now) && Fair(q, r, pcf, now)
    ensures Fair(p, r, pcf, now)
  {
    hide Logged, BucketOk, QueueOk, Credit, RecordFrames;
  }

  lemma {:induction false} CheckedQueueOk(cfg: Config, p: Peer, key: Key, c: Case)
    requires AllOk(p.account.q.advs) && Sound(c) && KeyOk(key)
    ensures QueueOk(p.account.q) ==> QueueOk(CheckPeer(cfg, p, key, c).account.q)
  {
    hide AllOk, Checked, DirectAfter, MayCheck, Sound, KeyOk;
    CheckedOk(p.account.q.advs, key, c);
  }

  lemma {:induction false} CheckAllFair(cfg: Config, p: Peer, walk: Walk, pcf: bool, now: int)
    requires AllOk(p.account.q.advs) && WalkOk(walk, now)
    ensures var r := CheckAll(cfg, p, walk, now).0;
            Fair(p, r, pcf, now) && r.kaTerm == p.kaTerm && r.account.q.eobPending == p.account.q.eobPending
    decreases |walk|
  {
    hide Fair, Checked, DirectAfter, MayCheck, IsQueued, AllOk, Sound, KeyOk;
    if walk == [] {
      FairUntouched(p, p, pcf, now);
    } else {
      var n := |walk| - 1;
      CheckAllFair(cfg, p, walk[..n], pcf, now);
      var b := CheckAll(cfg, p, walk[..n], now).0;
      var r := CheckPeer(cfg, b, walk[n].0, walk[n].1);
      CheckedQueueOk(cfg, b, walk[n].0, walk[n].1);
      FairUntouched(b, r, pcf, now);
      FairTwice(p, b, r, pcf, now);
    }
  }

  lemma {:induction false} EntriesSplit(frames: seq<seq<Rec>>, now: int)
    requires frames != []
    ensures FrameEntries(Flatten(frames), now) == FrameEntries(frames[0], now) + FrameEntries(Flatten(frames[1..]), now)
  {
  }

  lemma {:induction false} SendsSplit(out: seq<Item>, frames: seq<seq<Rec>>, now: int)
    requires frames != []
    ensures out + Sends(frames, now) == (out + [Records(frames[0], now)]) + Sends(frames[1..], now)
  {
  }

  lemma {:induction false} SendsCounted(out: seq<Item>, frames: seq<seq<Rec>>, now: int)
    ensures RecordFrames(out + Sends(frames, now)) == RecordFrames(out) + |frames|
    ensures Carried(out + Sends(frames, now)) == Carried(out) + FrameEntries(Flatten(frames), now)
    decreases |frames|
  {
    hide Carried, RecordFrames, FrameEntries;
    if frames == [] {
      assert out + Sends(frames, now) == out;
      assert Carried(out) + FrameEntries(Flatten(frames), now) == Carried(out);
    } else {
      var head, tail := Records(frames[0], now), frames[1..];
      Snoc(out, head);
      SendsCounted(out + [head], tail, now);
      SendsSplit(out, frames, now);
      EntriesSplit(frames, now);
    }
  }

  lemma {:induction false} DrainFair(cfg: Config, p: Peer, now: int)
    requires AllOk(p.account.q.advs) && QueueOk(p.account.q) && now > 0
    ensures Fair(p, DrainPeer(cfg, p, now), p.Pcf(), now) && DrainPeer(cfg, p, now).kaTerm == p.kaTerm
  {
    hide AllOk, QueueOk, DrainOnce, Credit, BucketOk, RecordFrames, Carried, Flatten, AnyQueued;
    if !cfg.transit {
      FairUntouched(p, p, p.Pcf(), now);
    } else {
      var closed, pcf := !Allowed(cfg, p), p.Pcf();
      var d := DrainOnce(p.account.q, closed, pcf, now);
      PeerAfterDrain(cfg, p, now, d);
      DrainLogged(cfg, p, d, now);
      DrainConserves(p.account.q, closed, pcf, now);
      if BucketOk(p.account.q, pcf, now) { DrainSpendsCredit(p.account.q, closed, pcf, now); }
    }
  }

  lemma {:induction false} DrainLogged(cfg: Config, p: Peer, d: Drained, now: int)
    ensures var out := p.out + Sends(d.frames, now) + (if d.eob then [Mark(now, true, p.Pcf())] else []);
            && RecordFrames(out) == RecordFrames(p.out) + |d.frames|
            && (Logged(p) ==>
                 Plainly(p.account.log + Stamped(Flatten(d.frames), p.account.direct, now)) == Carried(out))
  {
    hide Flatten, RecordFrames, Carried;
    SendsCounted(p.out, d.frames, now);
    var mid := p.out + Sends(d.frames, now);
    Snoc(mid, Mark(now, true, p.Pcf()));
    assert mid + [] == mid;
    LogGrows(p.account.log, Flatten(d.frames), p.account.direct, now);
  }

  lemma {:induction false} LogGrows(log: seq<Sent>, rs: seq<Rec>, direct: set<Key>, now: int)
    ensures Plainly(log + Stamped(rs, direct, now)) == Plainly(log) + FrameEntries(rs, now)
  {
  }

  lemma {:induction false} SendOwnFair(p: Peer, deferMark: bool, pcf: bool, now: int)
    ensures Fair(p, SendOwn(p, deferMark, now), pcf, now)
  {
    hide Fair;
    var own, mark := OwnRecord(now), Mark(now, false, p.Pcf());
    FairItem(p, own, pcf, now);
    var q := p.(out := p.out + [own]);
    FairItem(q, mark, pcf, now);
    FairTwice(p, q, q.(out := q.out + [mark]), pcf, now);
    assert q.out + [] == q.out;
  }

  // ----- the events

  lemma {:induction false} SeedFair(cfg: Config, p: Peer, walk: Walk, now: int)
    requires AllOk(p.account.q.advs) && QueueOk(p.account.q) && WalkOk(walk, now) && now > 0
    ensures Fair(p, Seed(cfg, p, walk, now), p.Pcf(), now) && Fair(p, Neighbours(cfg, p, walk, now), p.Pcf(), now)
    ensures Seed(cfg, p, walk, now).kaTerm == p.kaTerm && Neighbours(cfg, p, walk, now).kaTerm == p.kaTerm
  {
    hide AllOk, CheckAll, DrainPeer, WalkOk, Logged, BucketOk, Credit, RecordFrames;
    var pcf := p.Pcf();
    if !cfg.transit {
      FairUntouched(p, p, pcf, now);
    } else {
      CheckAllFair(cfg, p, walk, pcf, now);
      var b := CheckAll(cfg, p, walk, now).0;
      var d := DrainPeer(cfg, b, now);
      DrainFair(cfg, b, now);
      FairTwice(p, b, d, pcf, now);
      FairUntouched(b, b.(lastAdvert := now), pcf, now);
      FairUntouched(d, d.(lastAdvert := now), pcf, now);
      FairTwice(p, b, b.(lastAdvert := now), pcf, now);
      FairTwice(p, d, d.(lastAdvert := now), pcf, now);
    }
  }

  lemma {:induction false} IntroduceFair(cfg: Config, p: Peer, walk: Walk, now: int)
    requires AllOk(p.account.q.advs) && QueueOk(p.account.q) && WalkOk(walk, now) && now > 0
    ensures Fair(p, Introduce(cfg, p, walk, now), p.Pcf(), now) && Introduce(cfg, p, walk, now).kaTerm == p.kaTerm
  {
    hide AllOk, Seed, WalkOk, Fair;
    var a := SendOwn(p, false, now);
    var b := a.(sentRoutes := true);
    SendOwnFair(p, false, p.Pcf(), now);
    FairUntouched(a, b, p.Pcf(), now);
    FairTwice(p, a, b, p.Pcf(), now);
    SeedFair(cfg, b, walk, now);
    FairTwice(p, b, Introduce(cfg, p, walk, now), p.Pcf(), now);
  }

  lemma {:induction false} AnswerFair(cfg: Config, p: Peer, walk: Walk, now: int)
    requires AllOk(p.account.q.advs) && QueueOk(p.account.q) && WalkOk(walk, now) && now > 0
    ensures Fair(p, Answer(cfg, p, walk, now), p.Pcf(), now) && Answer(cfg, p, walk, now).kaTerm == p.kaTerm
  {
    hide AllOk, CheckAll, DrainPeer, WalkOk, Logged, BucketOk, Credit, RecordFrames;
    var pcf := p.Pcf();
    CheckAllFair(cfg, p, walk, pcf, now);
    var b := CheckAll(cfg, p, walk, now).0;
    var c := b.(account := After(b.account, Owe));
    FairUntouched(b, c, pcf, now);
    DrainFair(cfg, c, now);
    FairTwice(p, b, c, pcf, now);
    FairTwice(p, c, DrainPeer(cfg, c, now), pcf, now);
  }

  /** The event clears the neighbour's table. */
  predicate Forgets(p: Peer, e: Event) { (e.GotInit? && AnswersInit(p, e.now)) || (e.Restarted? && p.quiesced) }

  lemma {:induction false} HandshakeFair(p: Peer, pcf: bool, now: int)
    ensures Fair(p, SendKeepalive(p, now), pcf, now) && Fair(p, SendInit(p, now), pcf, now)
    ensures Fair(p, SendKeepalive(SendInit(p, now), now), pcf, now)
  {
    hide Fair;
    FairItem(p, KeepaliveSent(now), pcf, now);
    FairItem(p, InitSent(now), pcf, now);
    var q := p.(out := p.out + [InitSent(now)]);
    FairUntouched(q, SendInit(p, now), pcf, now);
    FairTwice(p, q, SendInit(p, now), pcf, now);
    FairItem(SendInit(p, now), KeepaliveSent(now), pcf, now);
    FairTwice(p, SendInit(p, now), SendKeepalive(SendInit(p, now), now), pcf, now);
  }

  lemma {:induction false} LinkTimeFair(p: Peer, pcf: bool, now: int)
    ensures Fair(p, SendLinkTime(p, now), pcf, now)
  {
    hide Fair;
    var q := p.(out := p.out + [LinkTimeSent(now)]);
    FairItem(p, LinkTimeSent(now), pcf, now);
    FairUntouched(p, p, pcf, now);
    FairUntouched(q, q.(lastLt := now), pcf, now);
    FairTwice(p, q, q.(lastLt := now), pcf, now);
  }

  lemma {:induction false} SameShape(p: Peer, now: int)
    ensures var r := SendLinkTime(p, now);
            r.kaTerm == p.kaTerm && r.account == p.account && r.sentRoutes == p.sentRoutes && r.quiesced == p.quiesced
            && r.gotInit == p.gotInit && r.inferred == p.inferred && r.lastAdvert == p.lastAdvert
  {
  }

  lemma {:induction false} GuessShapeFair(p: Peer, long: bool, pcf: bool, now: int)
    ensures Fair(p, GuessShape(p, long, now), pcf, now)
  {
    hide Fair;
    var a, b := p.(kaLen := KA_LEN_PCF, kaTerm := '\r'), p.(kaLen := KA_LEN, kaTerm := ' ');
    FairUntouched(p, p, pcf, now);
    FairUntouched(p, a, pcf, now);
    FairUntouched(p, b, pcf, now);
    HandshakeFair(a, pcf, now);
    FairTwice(p, a, SendKeepalive(a, now), pcf, now);
  }

  lemma {:induction false} OnInitFair(cfg: Config, p: Peer, long: bool, walk: Walk, now: int)
    requires AllOk(p.account.q.advs) && QueueOk(p.account.q) && WalkOk(walk, now) && now > 0 && !AnswersInit(p, now)
    ensures var r := OnInit(cfg, p, long, walk, now); Fair(p, r, r.Pcf(), now)
  {
    hide AllOk, Introduce, WalkOk, Logged, BucketOk, Credit, RecordFrames;
    var p0 := p.(gotInit := true);
    var p1 := GuessShape(p0, long, now);
    var pcf := p1.Pcf();
    FairUntouched(p, p0, pcf, now);
    GuessShapeFair(p0, long, pcf, now);
    FairTwice(p, p0, p1, pcf, now);
    if !p1.sentRoutes {
      IntroduceFair(cfg, p1, walk, now);
      FairTwice(p, p1, Introduce(cfg, p1, walk, now), pcf, now);
    }
  }

  lemma {:induction false} OnKeepaliveFair(cfg: Config, p: Peer, len: nat, term: char, up: bool, echo: bool,
                                           walk: Walk, now: int)
    requires AllOk(p.account.q.advs) && QueueOk(p.account.q) && WalkOk(walk, now) && now > 0
    ensures var r := OnKeepalive(cfg, p, len, term, up, echo, walk, now); Fair(p, r, r.Pcf(), now)
  {
    hide AllOk, Introduce, WalkOk, Logged, BucketOk, Credit, RecordFrames, SendLinkTime;
    var p1 := NoteEstablished(p, up);
    var p2 := if 2 <= len <= KA_LEN then p1.(kaLen := len, kaTerm := term) else p1;
    var q := if echo then SendKeepalive(p2, now) else p2;
    var p3 := SendLinkTime(q, now);
    SameShape(q, now);
    var pcf := p3.Pcf();
    FairUntouched(p, p2, pcf, now);
    HandshakeFair(p2, pcf, now);
    FairUntouched(p2, p2, pcf, now);
    FairTwice(p, p2, q, pcf, now);
    LinkTimeFair(q, pcf, now);
    FairTwice(p, q, p3, pcf, now);
    if !p3.sentRoutes && p3.Established() {
      IntroduceFair(cfg, p3, walk, now);
      FairTwice(p, p3, Introduce(cfg, p3, walk, now), pcf, now);
    }
  }

  lemma {:induction false} OnRequestFair(cfg: Config, p: Peer, up: bool, walk: Walk, now: int)
    requires AllOk(p.account.q.advs) && QueueOk(p.account.q) && WalkOk(walk, now) && now > 0
    ensures var r := OnRequest(cfg, p, up, walk, now); Fair(p, r, r.Pcf(), now)
  {
    hide AllOk, Answer, WalkOk, Logged, BucketOk, Credit, RecordFrames;
    var p1 := NoteEstablished(p, up);
    var pcf := p.Pcf();
    FairUntouched(p, p1, pcf, now);
    var a := p1.(out := p1.out + [Asked(now)]);
    FairItem(p1, Asked(now), pcf, now);
    FairTwice(p, p1, a, pcf, now);
    var b := a.(quiesced := false);
    FairUntouched(a, b, pcf, now);
    FairTwice(p, a, b, pcf, now);
    var c := SendOwn(b, cfg.transit, now);
    SendOwnFair(b, cfg.transit, pcf, now);
    FairTwice(p, b, c, pcf, now);
    var d := if cfg.transit then Answer(cfg, c, walk, now) else c;
    FairUntouched(c, c, pcf, now);
    if cfg.transit { AnswerFair(cfg, c, walk, now); }
    FairTwice(p, c, d, pcf, now);
    FairUntouched(d, d.(sentRoutes := true), pcf, now);
    FairTwice(p, d, d.(sentRoutes := true), pcf, now);
  }

  lemma {:induction false} OnTimerFair(cfg: Config, p: Peer, beat: bool, refresh: Walk, walk: Walk, now: int)
    requires AllOk(p.account.q.advs) && QueueOk(p.account.q) && WalkOk(refresh, now) && WalkOk(walk, now) && now > 0
    ensures var r := OnTimer(cfg, p, beat, refresh, walk, now); Fair(p, r, p.Pcf(), now) && r.kaTerm == p.kaTerm
  {
    hide AllOk, Introduce, Neighbours, DrainPeer, WalkOk, Logged, BucketOk, Credit, RecordFrames, SendLinkTime;
    var pcf, q := p.Pcf(), SendKeepalive(p, now);
    var p0 := if beat then SendLinkTime(q, now) else p;
    HandshakeFair(p, pcf, now);
    FairUntouched(p, p, pcf, now);
    SameShape(q, now);
    LinkTimeFair(q, pcf, now);
    FairTwice(p, q, SendLinkTime(q, now), pcf, now);
    var p1 := p0;
    if cfg.transit && p0.sentRoutes && Allowed(cfg, p0) && !p0.account.q.eobPending &&
      now - p0.lastAdvert >= ADVERT_INTERVAL {
      RefreshFair(cfg, p0, refresh, now);
      p1 := Neighbours(cfg, SendOwn(p0.(lastAdvert := now), false, now), refresh, now);
      FairTwice(p, p0, p1, pcf, now);
    }
    var p2 := p1;
    if cfg.transit && !p1.sentRoutes && p1.Established() {
      IntroduceFair(cfg, p1, walk, now);
      p2 := Introduce(cfg, p1, walk, now);
      FairTwice(p, p1, p2, pcf, now);
    }
    DrainFair(cfg, p2, now);
    FairTwice(p, p2, DrainPeer(cfg, p2, now), pcf, now);
  }

  lemma {:induction false} RefreshFair(cfg: Config, p: Peer, refresh: Walk, now: int)
    requires AllOk(p.account.q.advs) && QueueOk(p.account.q) && WalkOk(refresh, now) && now > 0
    ensures var r := Neighbours(cfg, SendOwn(p.(lastAdvert := now), false, now), refresh, now);
            Fair(p, r, p.Pcf(), now) && r.kaTerm == p.kaTerm
  {
    hide AllOk, Neighbours, WalkOk, Logged, BucketOk, Credit, RecordFrames;
    var pcf, a := p.Pcf(), p.(lastAdvert := now);
    var b := SendOwn(a, false, now);
    FairUntouched(p, a, pcf, now);
    SendOwnFair(a, false, pcf, now);
    FairTwice(p, a, b, pcf, now);
    SeedFair(cfg, b, refresh, now);
    FairTwice(p, b, Neighbours(cfg, b, refresh, now), pcf, now);
  }

  lemma {:induction false} StepFair(cfg: Config, p: Peer, e: Event)
    requires Feasible(p, e) && QueueOk(p.account.q) && e.now > 0 && !Forgets(p, e)
    ensures var r := Peers.Step(cfg, p, e); Fair(p, r, r.Pcf(), e.now)
  {
    hide Fair, AllOk, WalkOk, OnInit, OnKeepalive, OnRequest, OnTimer, CheckAll, DrainPeer, SendLinkTime;
    match e {
      case GotInit(long, walk, now) => OnInitFair(cfg, p, long, walk, now);
      case GotKeepalive(len, term, up, echo, walk, now) => OnKeepaliveFair(cfg, p, len, term, up, echo, walk, now);
      case GotLinkTime(up, now) =>
        var q := NoteEstablished(p, up);
        FairUntouched(p, q, p.Pcf(), now);
        LinkTimeFair(q, p.Pcf(), now);
        SameShape(q, now);
        FairTwice(p, q, SendLinkTime(q, now), p.Pcf(), now);
      case Heard(up, now) => FairUntouched(p, NoteEstablished(p, up), p.Pcf(), now);
      case GotRequest(up, walk, now) => OnRequestFair(cfg, p, up, walk, now);
      case Changed(walk, now) => ChangedFair(cfg, p, walk, now);
      case Timer(beat, refresh, walk, now) => OnTimerFair(cfg, p, beat, refresh, walk, now);
      case Restarted(now) => FairUntouched(p, p, p.Pcf(), now);
      case Rehandshake(now) =>
        var q := p.(sentRoutes := false);
        FairUntouched(p, p, p.Pcf(), now);
        FairUntouched(p, q, p.Pcf(), now);
        HandshakeFair(q, p.Pcf(), now);
        FairTwice(p, q, SendKeepalive(SendInit(q, now), now), p.Pcf(), now);
    }
  }

  lemma {:induction false} ChangedFair(cfg: Config, p: Peer, walk: Walk, now: int)
    requires AllOk(p.account.q.advs) && QueueOk(p.account.q) && WalkOk(walk, now) && now > 0
    ensures var r := DrainPeer(cfg, CheckAll(cfg, p, walk, now).0, now);
            Fair(p, r, p.Pcf(), now) && r.kaTerm == p.kaTerm
  {
    hide AllOk, CheckAll, DrainPeer, WalkOk, Logged, BucketOk, Credit, RecordFrames;
    CheckAllFair(cfg, p, walk, p.Pcf(), now);
    var b := CheckAll(cfg, p, walk, now).0;
    DrainFair(cfg, b, now);
    FairTwice(p, b, DrainPeer(cfg, b, now), p.Pcf(), now);
  }

  // ----- whole sessions

  lemma {:induction false} ForgottenLogged(p: Peer, why: Item)
    requires why.InitAnswered? || why.LinkRestarted?
    ensures Logged(Forget(p, why))
  {
    hide RecordFrames;
    Snoc(p.out, why);
  }

  lemma {:induction false} StepLogged(cfg: Config, p: Peer, e: Event)
    requires Feasible(p, e) && QueueOk(p.account.q) && e.now > 0 && Logged(p)
    ensures Logged(Peers.Step(cfg, p, e))
  {
    hide Logged, AllOk, WalkOk, OnKeepalive, OnRequest, OnTimer, CheckAll, DrainPeer, Introduce, Forget, BucketOk,
      Credit, RecordFrames;
    if !Forgets(p, e) {
      StepFair(cfg, p, e);
    } else if e.GotInit? {
      var q := SendKeepalive(SendInit(GuessShape(p.(gotInit := true), e.long, e.now), e.now), e.now);
      var f := Forget(q, InitAnswered(e.now));
      ForgottenLogged(q, InitAnswered(e.now));
      EmptyTable(q, InitAnswered(e.now));
      IntroduceFair(cfg, f, e.walk, e.now);
    } else {
      ForgottenLogged(p, LinkRestarted(e.now));
    }
  }

  lemma {:induction false} EmptyTable(p: Peer, why: Item)
    ensures QueueOk(Forget(p, why).account.q)
  {
  }

  lemma {:induction false} RunsLogged(cfg: Config, p: Peer, t: int, es: seq<Event>)
    requires PeerOk(cfg, p, t) && t > 0 && Logged(p) && Runs(cfg, p, t, es).Some?
    ensures Logged(Runs(cfg, p, t, es).value.0)
  {
    hide PeerOk, Logged, Peers.Step, Feasible;
    if es != [] {
      var n := |es| - 1;
      RunsLogged(cfg, p, t, es[..n]);
      RunsKeep(cfg, p, t, es[..n]);
      var s := Runs(cfg, p, t, es[..n]).value;
      PeerQueue(cfg, s.0, s.1);
      StepLogged(cfg, s.0, es[n]);
    }
  }

  lemma {:induction false} PeerQueue(cfg: Config, p: Peer, t: int)
    requires PeerOk(cfg, p, t)
    ensures QueueOk(p.account.q) && AllOk(p.account.q.advs) && LogOk(p.account.log, t)
  {
  }

  /** The records a session's frames carried since its table was last cleared are
      its history, in order and with their times; so in every session no withdrawal
      is ever on the wire before a finite record of its destination, and none is
      contradicted on hearsay within ninety seconds. */
  lemma {:induction false} SessionKeepsItsWord(cfg: Config, start: int, lastAdvert: int, es: seq<Event>)
    requires start > 0 && SessionRun(cfg, start, lastAdvert, es).Some?
    ensures var p := SessionRun(cfg, start, lastAdvert, es).value.0;
            Plainly(p.account.log) == Carried(p.out) && HeardBefore(p.account.log) && HeldDownRecords(p.account.log)
  {
    hide PeerOk, Runs, LogOk, AllOk, QueueOk, Carried, HeardBefore, HeldDownRecords;
    var s := SessionRun(cfg, start, lastAdvert, es).value;
    StartedOk(cfg, start, lastAdvert);
    StartedLogged(start, lastAdvert);
    RunsLogged(cfg, Started(start, lastAdvert), start, es);
    SessionKeeps(cfg, start, lastAdvert, es);
    PeerQueue(cfg, s.0, s.1);
    FirstRecordIsFinite(s.0.account.log, s.1);
    LogHeldDown(s.0.account.log, s.1);
  }

  lemma {:induction false} LogHeldDown(log: seq<Sent>, t: int)
    requires LogOk(log, t)
    ensures HeldDownRecords(log)
  {
  }

  lemma {:induction false} StartedLogged(start: int, lastAdvert: int)
    ensures Logged(Started(start, lastAdvert))
  {
    Snoc([], InitSent(start));
    Snoc([InitSent(start)], KeepaliveSent(start));
    assert [] + [InitSent(start)] == [InitSent(start)];
    assert [InitSent(start)] + [KeepaliveSent(start)] == Started(start, lastAdvert).out;
  }

  /** No event of the run changes the neighbour's family. */
  predicate SteadyRun(cfg: Config, p: Peer, t: int, es: seq<Event>)
  {
    es == [] ||
    (var n := |es| - 1;
     && SteadyRun(cfg, p, t, es[..n])
     && Runs(cfg, p, t, es[..n]).Some?
     && var s := Runs(cfg, p, t, es[..n]).value;
        CanHappen(s.0, es[n], s.1) && Peers.Step(cfg, s.0, es[n]).Pcf() == s.0.Pcf())
  }

  /** How often the run clears the neighbour's table, and with it the bucket. */
  function Clears(cfg: Config, p: Peer, t: int, es: seq<Event>): nat
  {
    if es == [] then 0
    else
      var n := |es| - 1;
      var s := Runs(cfg, p, t, es[..n]);
      Clears(cfg, p, t, es[..n]) + (if s.Some? && Forgets(s.value.0, es[n]) then 1 else 0)
  }

  /** The token bucket over whole sessions: in any stretch of a session in which the
      family stays, the record frames drained number at most one bucket, and another
      for each time the table is cleared, plus the stretch's length over the refill
      interval, whatever is asked, learned or lost meanwhile. */
  lemma {:induction false} SessionKeepsToTheBucket(cfg: Config, p: Peer, t: int, es: seq<Event>)
    requires PeerOk(cfg, p, t) && t > 0 && Runs(cfg, p, t, es).Some? && SteadyRun(cfg, p, t, es) &&
             BucketOk(p.account.q, p.Pcf(), t)
    ensures var s := Runs(cfg, p, t, es).value;
            (RecordFrames(s.0.out) - RecordFrames(p.out)) as real <=
              ((if p.Pcf() then 2 else 4) * (Clears(cfg, p, t, es) + 1)) as real
                + (s.1 - t) as real / (if p.Pcf() then 5.0 else 2.0)
  {
    hide PeerOk, Runs, SteadyRun, BucketSize, Gained, Clears;
    RunPaysItsWay(cfg, p, t, es);
    var s := Runs(cfg, p, t, es).value;
    CreditGrows(p.account.q, p.Pcf(), t, t);
    CreditNotNegative(s.0.account.q, p.Pcf(), s.1);
    OneMore(p.Pcf(), Clears(cfg, p, t, es));
    FamilyNumbers(p.Pcf(), s.1 - t);
  }

  lemma {:induction false} FamilyNumbers(pcf: bool, t: int)
    ensures BucketSize(pcf) == (if pcf then 2 else 4) && Gained(pcf, t) == t as real / (if pcf then 5.0 else 2.0)
  {
  }

  /** Tokens in `n` full buckets. */
  function Buckets(pcf: bool, n: nat): real { (BucketSize(pcf) * n) as real }

  lemma {:induction false} OneMore(pcf: bool, n: nat)
    ensures Buckets(pcf, 0) == 0.0 && Buckets(pcf, n + 1) == BucketSize(pcf) as real + Buckets(pcf, n)
  {
  }

  lemma {:induction false} RunPaysItsWay(cfg: Config, p: Peer, t: int, es: seq<Event>)
    requires PeerOk(cfg, p, t) && t > 0 && Runs(cfg, p, t, es).Some? && SteadyRun(cfg, p, t, es) &&
             BucketOk(p.account.q, p.Pcf(), t)
    ensures var s := Runs(cfg, p, t, es).value; var pcf := p.Pcf();
            && s.0.Pcf() == pcf && s.1 >= t && BucketOk(s.0.account.q, pcf, s.1)
            && RecordFrames(s.0.out) as real + Credit(s.0.account.q, pcf, s.1)
               <= RecordFrames(p.out) as real + Credit(p.account.q, pcf, t) + Gained(pcf, s.1 - t)
                  + Buckets(pcf, Clears(cfg, p, t, es))
  {
    hide PeerOk, Peers.Step, Feasible, CanHappen, BucketOk, Credit, RecordFrames, Gained, Forgets, BucketSize,
      Buckets;
    var pcf := p.Pcf();
    GainedAdds(pcf, 0, 0);
    OneMore(pcf, 0);
    if es != [] {
      var n := |es| - 1;
      RunPaysItsWay(cfg, p, t, es[..n]);
      RunsKeep(cfg, p, t, es[..n]);
      var s := Runs(cfg, p, t, es[..n]).value;
      var now := es[n].now;
      PeerQueue(cfg, s.0, s.1);
      HappensLater(s.0, es[n], s.1);
      LaterBucket(s.0.account.q, pcf, s.1, now);
      StepPays(cfg, s.0, es[n]);
      OneMore(pcf, Clears(cfg, p, t, es[..n]));
      GainedAdds(pcf, s.1 - t, now - s.1);
    }
  }

  /** One event, cleared table or not. */
  lemma {:induction false} StepPays(cfg: Config, p: Peer, e: Event)
    requires Feasible(p, e) && e.now > 0 && QueueOk(p.account.q) && BucketOk(p.account.q, p.Pcf(), e.now)
    requires Peers.Step(cfg, p, e).Pcf() == p.Pcf()
    ensures var r, pcf := Peers.Step(cfg, p, e), p.Pcf();
            && BucketOk(r.account.q, pcf, e.now)
            && RecordFrames(r.out) as real + Credit(r.account.q, pcf, e.now) <=
               RecordFrames(p.out) as real + Credit(p.account.q, pcf, e.now)
                 + (if Forgets(p, e) then BucketSize(pcf) as real else 0.0)
  {
    hide Peers.Step, Feasible, BucketOk, Credit, RecordFrames, Forgets, BucketSize, QueueOk;
    if Forgets(p, e) {
      ClearRefills(cfg, p, e);
    } else {
      StepFair(cfg, p, e);
      PaidBy(p, Peers.Step(cfg, p, e), p.Pcf(), e.now);
    }
  }

  /** Clearing the table fills the bucket, and what goes out with it is paid for. */
  lemma {:induction false} ClearRefills(cfg: Config, p: Peer, e: Event)
    requires Feasible(p, e) && e.now > 0 && Forgets(p, e) && BucketOk(p.account.q, p.Pcf(), e.now)
    requires Peers.Step(cfg, p, e).Pcf() == p.Pcf()
    ensures var r, pcf := Peers.Step(cfg, p, e), p.Pcf();
            && BucketOk(r.account.q, pcf, e.now)
            && RecordFrames(r.out) as real + Credit(r.account.q, pcf, e.now) <=
               RecordFrames(p.out) as real + Credit(p.account.q, pcf, e.now) + BucketSize(pcf) as real
  {
    hide AllOk, WalkOk, Introduce, Forget, BucketOk, Credit, RecordFrames, BucketSize, Carried;
    var now, pcf := e.now, p.Pcf();
    CreditNotNegative(p.account.q, pcf, now);
    if e.GotInit? {
      var p0 := p.(gotInit := true);
      var p1 := GuessShape(p0, e.long, now);
      var q := SendKeepalive(SendInit(p1, now), now);
      var f := Forget(q, InitAnswered(now));
      FramesBeforeInit(p0, e.long, now);
      EmptyTable(q, InitAnswered(now));
      FullBucket(q, InitAnswered(now), pcf, now);
      IntroduceFair(cfg, f, e.walk, now);
      ShapeKept(q, InitAnswered(now));
      PaidBy(f, Introduce(cfg, f, e.walk, now), pcf, now);
    } else {
      FullBucket(p, LinkRestarted(now), pcf, now);
    }
  }

  lemma {:induction false} FramesBeforeInit(p: Peer, long: bool, now: int)
    ensures RecordFrames(SendKeepalive(SendInit(GuessShape(p, long, now), now), now).out) == RecordFrames(p.out)
  {
    hide RecordFrames, Carried;
    Snoc(p.out, KeepaliveSent(now));
    var q := GuessShape(p, long, now);
    Snoc(q.out, InitSent(now));
    Snoc(q.out + [InitSent(now)], KeepaliveSent(now));
  }

  lemma {:induction false} ShapeKept(p: Peer, why: Item)
    ensures Forget(p, why).kaTerm == p.kaTerm && !Forget(p, why).sentRoutes
  {
  }

  lemma {:induction false} FullBucket(p: Peer, why: Item, pcf: bool, now: int)
    requires now > 0 && !why.Records?
    ensures var f := Forget(p, why);
            && BucketOk(f.account.q, pcf, now) && Credit(f.account.q, pcf, now) == BucketSize(pcf) as real
            && RecordFrames(f.out) == RecordFrames(p.out)
  {
    hide RecordFrames, Carried;
    Snoc(p.out, why);
  }

  lemma {:induction false} HappensLater(p: Peer, e: Event, t: int)
    requires CanHappen(p, e, t)
    ensures Feasible(p, e) && e.now >= t
  {
  }

  lemma {:induction false} LaterBucket(q: Queue, pcf: bool, t: int, u: int)
    requires BucketOk(q, pcf, t) && t <= u
    ensures BucketOk(q, pcf, u) && Credit(q, pcf, u) <= Credit(q, pcf, t) + Gained(pcf, u - t)
  {
    CreditGrows(q, pcf, t, u);
  }

  lemma {:induction false} PaidBy(p: Peer, r: Peer, pcf: bool, now: int)
    requires Fair(p, r, pcf, now) && BucketOk(p.account.q, pcf, now)
    ensures BucketOk(r.account.q, pcf, now)
    ensures RecordFrames(r.out) as real + Credit(r.account.q, pcf, now) <=
            RecordFrames(p.out) as real + Credit(p.account.q, pcf, now)
  {
  }
}
