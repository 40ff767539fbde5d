/** The node's record of one neighbour, changed in place: the advertised table that
  * doubles as the queue, its token bucket, and what has been sent.
  */
module PeerSlots {
  import opened Base
  import opened World
  import opened ClimbGuard
  import opened Advertise
  import opened CompactCodec
  import opened Drain
  import opened AdvRuns
  import opened Peers

  function Packed(frames: seq<seq<Rec>>): (r: seq<string>)
    requires forall i :: 0 <= i < |frames| ==> AllWritable(frames[i])
    ensures |r| == |frames| && forall i :: 0 <= i < |frames| ==> r[i] == Pack(frames[i])
  {
    seq(|frames|, i requires 0 <= i < |frames| => Pack(frames[i]))
  }

  class PeerSlot {
    const cfg: Config
    var advs: seq<Adv>
    var tokens: real
    var lastRefill: int
    var eobPending: bool
    var eobSince: int
    var sentRoutes: bool
    var gotInit: bool
    var inferred: bool
    var quiesced: bool
    var kaLen: nat
    var kaTerm: char
    var lastInit: int
    var lastAdvert: int
    var lastLt: int
    var wire: seq<string>
    ghost var log: seq<Sent>
    ghost var direct: set<Key>
    ghost var out: seq<Item>

    ghost function Table(): Queue reads this { Queue(advs, tokens, lastRefill, eobPending, eobSince) }

    ghost function State(): Peer
      reads this
    {
      Peer(Account(Table(), log, direct), sentRoutes, gotInit, inferred, quiesced, kaLen, kaTerm, lastInit,
        lastAdvert, lastLt, out)
    }

    constructor (cfg: Config, now: int)
      ensures this.cfg == cfg && State() == Started(now, 0) && wire == []
    {
      this.cfg := cfg;
      advs, tokens, lastRefill, eobPending, eobSince := [], 0.0, 0, false, 0;
      sentRoutes, gotInit, inferred, quiesced := false, false, false, false;
      kaLen, kaTerm, lastInit, lastAdvert, lastLt := 0, '\0', now, 0, 0;
      wire := [];
      log, direct, out := [], {}, [InitSent(now), KeepaliveSent(now)];
    }

    /** flex_adv_find without creating; the table's length if there is no entry. */
    method Find(key: Key) returns (i: nat)
      ensures i == AdvIndex(advs, key, 0)
    {
      i := 0;
      while i < |advs| && advs[i].key != key
        invariant i <= |advs| && AdvIndex(advs, key, i) == AdvIndex(advs, key, 0)
      {
        i := i + 1;
      }
    }

    /** The decision rule, step by step as the function takes it. */
    method Decide(key: Key, c: Case)
      requires AllOk(advs) && Sound(c) && KeyOk(key)
      modifies `advs
      ensures advs == Checked(old(advs), key, c)
    {
      hide AllOk, Judge, KeyOk;
      var i := Find(key);
      var found := i < |advs|;
      var toldBefore := found && 0 <= advs[i].last < INFINITY;
      var expected, pen := c.best.cost, c.best.pen;
      if c.ownOnly {
        if !toldBefore {
          if found { advs := advs[i := advs[i].(pending := false)]; }
          return;
        }
        expected, pen := INFINITY, 0;
      }
      if c.echo {
        if !toldBefore { return; }
        expected := INFINITY;
      }
      if c.directOnly && !c.best.direct {
        if !toldBefore { return; }
        expected := INFINITY;
      }
      if found && !c.best.direct && advs[i].last >= INFINITY && expected < INFINITY {
        if c.now - advs[i].lastAt < HOLDDOWN {
          advs := advs[i := advs[i].(pending := false)];
          return;
        }
      }
      if c.best.src < 0 {
        if !found || advs[i].last < 0 || advs[i].last >= INFINITY { return; }
      }
      if !found {
        if |advs| >= MAX_ADVERTISED { return; }
        advs := advs + [NewAdv(key)];
      }
      Weigh(i, expected, pen, c);
    }

    /** The rest of the rule for an entry that is there: the climb guard, then the
        jitter threshold, then the queue. */
    method Weigh(i: nat, offered: int, penalty: int, c: Case)
      requires i < |advs|
      requires 1 <= offered <= INFINITY && (penalty == c.best.pen || offered == INFINITY)
      modifies `advs
      ensures advs == old(advs)[i := Judged(old(advs[i]), offered, c)]
    {
      hide Judge;
      var expected, pen := offered, penalty;
      var last := advs[i].last;
      if !c.best.direct {
        var last' := if last < 0 || last >= INFINITY then last else last - advs[i].lastPen;
        var expected' := if expected >= INFINITY then expected else expected - pen;
        var floor, steps, looping, verdict :=
          ClimbIsLoop(advs[i].guard.floor, advs[i].guard.steps, advs[i].guard.looping, last', expected');
        advs := advs[i := advs[i].(guard := Guard(floor, steps, looping))];
        if verdict == Suppress && c.force {
          verdict := Withdraw;
          expected := INFINITY;
        }
        if verdict == Suppress {
          advs := advs[i := advs[i].(pending := false)];
          return;
        }
        if verdict == Withdraw && expected < INFINITY {
          expected := INFINITY;
        }
      }
      var fired := true;
      if last >= 0 && !c.force {
        var thresh := last * THRESHOLD_PCT / 100;
        if thresh < THRESHOLD_ABS { thresh := THRESHOLD_ABS; }
        var delta := if expected > last then expected - last else last - expected;
        if delta < thresh { fired := false; }
      }
      if expected >= INFINITY { pen := 0; }
      if !fired {
        if advs[i].pending { advs := advs[i := advs[i].(pendingRtt := expected, pendingPen := pen)]; }
        return;
      }
      advs := advs[i := advs[i].(pending := true, pendingRtt := expected, pendingPen := pen)];
    }

    /** flex_advertise_check, once the destination's case is known. */
    method Check(key: Key, c: Case)
      requires AllOk(advs) && Sound(c) && KeyOk(key)
      modifies this
      ensures State() == CheckPeer(cfg, old(State()), key, c) && wire == old(wire)
    {
      hide AllOk, Checked, DirectAfter, KeyOk, Sound;
      if cfg.quiesce && quiesced { return; }
      if !cfg.transit { return; }
      if key.call == "" { return; }
      if cfg.own.call != "" && key.call == cfg.own.call && key.lo <= cfg.own.hi && cfg.own.lo <= key.hi { return; }
      ghost var after := DirectAfter(direct, advs, key, c);
      Decide(key, c);
      direct := after;
    }

    /** First entry with a record waiting; the table's length if there is none. */
    method FirstQueued() returns (p: nat)
      ensures p <= |advs| && (p < |advs| ==> advs[p].pending) && forall j :: 0 <= j < p ==> !advs[j].pending
    {
      p := 0;
      while p < |advs| && !advs[p].pending
        invariant p <= |advs| && forall j :: 0 <= j < p ==> !advs[j].pending
      {
        p := p + 1;
      }
    }

    method CountQueued() returns (n: nat)
      ensures n == 0 <==> !AnyQueued(advs)
    {
      n := 0;
      var i := 0;
      while i < |advs|
        invariant i <= |advs| && (n == 0 <==> forall j :: 0 <= j < i ==> !advs[j].pending)
      {
        if advs[i].pending { n := n + 1; }
        i := i + 1;
      }
    }

    /** The inner loop of the drain: one frame, without its line end. The branch for
        a record that does not fit an empty frame is never taken. */
    method FillFrame(max: nat, now: int) returns (frame: string, count: nat, ghost recs: seq<Rec>, ghost k: nat)
      requires AllOk(advs) && max >= 1
      modifies `advs
      ensures k == FrameEnd(old(advs), 0, 1, 0, max) <= |old(advs)|
      ensures advs == Emitted(old(advs), k, now)
      ensures recs == QueuedRecs(old(advs), 0, k) && AllWritable(recs) && frame == "3" + PackRecs(recs) &&
              count == |recs|
    {
      hide AllOk, FrameEnd, Emitted, QueuedRecs, PackRecs, RouteRec, AdvOk;
      ghost var was := advs;
      frame, count := "3", 0;
      recs, k := [], 0;
      NothingSentYet(was, now);
      while count < max
        invariant k <= |was| && advs == Emitted(was, k, now)
        invariant FrameEnd(was, 0, 1, 0, max) == FrameEnd(was, k, |frame|, count, max)
        invariant recs == QueuedRecs(was, 0, k) && AllWritable(recs) && frame == "3" + PackRecs(recs) && count == |recs|
        invariant |frame| + 1 <= FRAME_BYTES && count <= max
        decreases max - count
      {
        var p := FirstQueued();
        SkipIdle(was, k, p, |frame|, count, max, now);
        k := p;
        if p == |advs| {
          FrameIsFull(was, p, |frame|, count, max);
          break;
        }
        EntryOk(was, p);
        RecordFits(was[p]);
        FrameEndStep(was, p, |frame|, count, max);
        var rec := RouteRec(RecOf(advs[p]));
        if |rec| >= FRAME_BYTES - |frame| - 1 {
          if count == 0 {
            OnlyThree(recs, frame);
            assert false;
          }
          break;
        }
        frame := frame + rec;
        ghost var next := recs + [RecOf(was[p])];
        OneMore(was, p, recs, now);
        var a := advs[p];
        advs := advs[p := a.(last := a.pendingRtt, lastPen := a.pendingPen, lastAt := now, pending := false)];
        count := count + 1;
        recs, k := next, p + 1;
      }
      if count >= max { FrameIsFull(was, k, |frame|, count, max); }
    }

    method Refill(pcf: bool, now: int)
      modifies `tokens, `lastRefill
      ensures tokens == Refilled(old(Table()), pcf, now)
      ensures lastRefill == if old(lastRefill) == 0 || now > old(lastRefill) then now else old(lastRefill)
    {
      var size := BucketSize(pcf) as real;
      if lastRefill == 0 {
        tokens, lastRefill := size, now;
      } else if now > lastRefill {
        tokens := tokens + (now - lastRefill) as real / RefillSeconds(pcf) as real;
        if tokens > size { tokens := size; }
        lastRefill := now;
      }
    }

    /** The outer loop of the drain: a frame for each whole token, none while the
        exchange is closed. */
    method SendFrames(closed: bool, pcf: bool, now: int) returns (sent: nat, ghost n: nat, ghost frames: seq<seq<Rec>>)
      requires AllOk(advs)
      modifies `advs, `tokens, `wire
      ensures n <= |old(advs)| && sent == |frames|
      ensures (n, frames) == if closed then (0, []) else Frames(old(advs), 0, old(tokens), FrameRecords(pcf))
      ensures advs == Emitted(old(advs), n, now)
      ensures tokens == old(tokens) - |frames| as real
      ensures FramesWritable(frames) && wire == old(wire) + Packed(frames)
    {
      hide AllOk, Frames, FrameEnd, Emitted, QueuedRecs, PackRecs;
      ghost var was := advs;
      ghost var bucket := tokens;
      var max := FrameRecords(pcf);
      assert max >= 1 by { FamilySizes(pcf); }
      NothingSentYet(was, now);
      sent, n, frames := 0, 0, [];
      assert [] + Frames(was, 0, bucket, max).1 == Frames(was, 0, bucket, max).1;
      assert wire + Packed([]) == wire;
      while !closed && tokens >= 1.0
        invariant closed ==> n == 0 && frames == []
        invariant n <= |was| && advs == Emitted(was, n, now) && AllOk(advs)
        invariant Frames(was, 0, bucket, max) == (Frames(was, n, tokens, max).0, frames + Frames(was, n, tokens, max).1)
        invariant tokens == bucket - |frames| as real && sent == |frames|
        invariant FramesWritable(frames) && wire == old(wire) + Packed(frames)
        decreases |was| - n
      {
        ghost var was' := advs;
        var frame, count, recs, k := FillFrame(max, now);
        EmittedOk(was', k, now);
        FrameGoesOn(was, n, max, now);
        EmittedTwice(was, n, k, now);
        FramesStep(was, n, tokens, max);
        if count == 0 {
          IdleEmitted(was, n, k, now);
          assert frames + [] == frames;
          break;
        }
        frame := frame + "\r";
        wire := wire + [frame];
        PackedSnoc(frames, recs);
        assert frames + ([recs] + Frames(was, k, tokens - 1.0, max).1) ==
          (frames + [recs]) + Frames(was, k, tokens - 1.0, max).1;
        frames, n := frames + [recs], k;
        sent := sent + 1;
        tokens := tokens - 1.0;
      }
      FramesStep(was, n, tokens, max);
      assert frames + [] == frames;
    }

    /** flex_advertise_drain: frames while whole tokens last, then the owed '3-'. */
    method Drain(now: int)
      requires QueueOk(Table()) && AllOk(advs) && now > 0
      modifies this
      ensures State() == DrainPeer(cfg, old(State()), now)
      ensures !cfg.transit ==> wire == old(wire)
      ensures cfg.transit ==>
                var d := DrainOnce(old(Table()), !Allowed(cfg, old(State())), old(State()).Pcf(), now);
                FramesWritable(d.frames) && wire == old(wire) + Packed(d.frames) + (if d.eob then ["3-\r"] else [])
    {
      hide AllOk, Frames, Refilled, QueueOk, AnyQueued, DrainOnce, DrainPeer;
      if !cfg.transit {
        NoTransitNoDrain(cfg, State(), now);
        return;
      }
      var queued := CountQueued();
      if queued == 0 && !eobPending {
        IdleDrain(cfg, State(), now);
        assert wire + Packed([]) + [] == wire;
        return;
      }
      PayOut(now);
    }

    method PayOut(now: int)
      requires AllOk(advs) && cfg.transit && (AnyQueued(advs) || eobPending)
      modifies `advs, `tokens, `lastRefill, `eobPending, `eobSince, `quiesced, `wire, `log, `out
      ensures State() == DrainPeer(cfg, old(State()), now)
      ensures var d := DrainOnce(old(Table()), !Allowed(cfg, old(State())), old(State()).Pcf(), now);
              FramesWritable(d.frames) && wire == old(wire) + Packed(d.frames) + (if d.eob then ["3-\r"] else [])
    {
      hide AllOk, Frames, Refilled, AnyQueued, DrainOnce, DrainPeer, Emitted, WithEob, Flatten, Stamped, Sends,
        Packed, FramesWritable, Spent;
      ghost var p := State();
      ghost var q := Table();
      var closed := cfg.quiesce && quiesced;
      var pcf := kaTerm != ' ';
      ghost var frames, eob := Pay(closed, pcf, now);
      BusyDrain(q, closed, pcf, now);
      ghost var d := Drained(Table(), frames, eob);
      assert DrainOnce(q, closed, pcf, now) == d;
      PeerAfterDrain(cfg, p, now, d);
      ghost var account :=
        Account(d.q, p.account.log + Stamped(Flatten(d.frames), p.account.direct, now), p.account.direct);
      assert State().account == account;
    }

    /** The drain proper: refill the bucket, spend it, end the batch. */
    method Pay(closed: bool, pcf: bool, now: int) returns (ghost frames: seq<seq<Rec>>, ghost eob: bool)
      requires AllOk(advs)
      modifies `advs, `tokens, `lastRefill, `eobPending, `eobSince, `quiesced, `wire, `log, `out
      ensures var q := old(Table());
              var f := if closed then (0, []) else Frames(q.advs, 0, Refilled(q, pcf, now), FrameRecords(pcf));
              frames == f.1 && WithEob(Spent(q, f.1, f.0, pcf, now), f.1, pcf, now) == Drained(Table(), frames, eob)
      ensures FramesWritable(frames) && wire == old(wire) + Packed(frames) + (if eob then ["3-\r"] else [])
      ensures log == old(log) + Stamped(Flatten(frames), direct, now)
      ensures out == old(out) + Sends(frames, now) + (if eob then [Mark(now, true, pcf)] else [])
      ensures quiesced == (old(quiesced) || (eob && cfg.quiesce && pcf))
    {
      hide AllOk, Frames, Refilled, Emitted, WithEob, Flatten, Stamped, Sends, Packed;
      ghost var q := Table();
      Refill(pcf, now);
      var sent, n, sentFrames := SendFrames(closed, pcf, now);
      log := log + Stamped(Flatten(sentFrames), direct, now);
      out := out + Sends(sentFrames, now);
      assert Table() == Spent(q, sentFrames, n, pcf, now);
      eob := MarkEnd(sent, sentFrames, pcf, now);
      frames := sentFrames;
    }

    /** The '3-' owed after a '3+' goes out once the queue has stayed empty. */
    method MarkEnd(sent: nat, ghost frames: seq<seq<Rec>>, pcf: bool, now: int) returns (eob: bool)
      requires sent == |frames|
      modifies `eobPending, `eobSince, `quiesced, `wire, `out
      ensures WithEob(old(Table()), frames, pcf, now) == Drained(Table(), frames, eob)
      ensures wire == old(wire) + (if eob then ["3-\r"] else [])
      ensures out == old(out) + (if eob then [Mark(now, true, pcf)] else [])
      ensures quiesced == (old(quiesced) || (eob && cfg.quiesce && pcf))
    {
      eob := false;
      if eobPending {
        var still := CountQueued();
        if still > 0 || sent > 0 {
          eobSince := 0;
        } else if eobSince == 0 {
          eobSince := now;
        } else if now - eobSince >= RefillSeconds(pcf) * EOB_QUIET_REFILLS {
          wire := wire + ["3-\r"];
          out := out + [Mark(now, true, pcf)];
          eob := true;
          eobPending, eobSince := false, 0;
          if cfg.quiesce && pcf && !quiesced { quiesced := true; }
        }
      }
    }

    // ----- handshake and bookkeeping, one step each

    method NoteEstablished(up: bool)
      modifies `inferred
      ensures State() == Peers.NoteEstablished(old(State()), up)
    {
      if gotInit || inferred { return; }
      if !up { return; }
      inferred := true;
    }

    method SendKeepalive(now: int)
      modifies `out
      ensures State() == Peers.SendKeepalive(old(State()), now)
    {
      out := out + [KeepaliveSent(now)];
    }

    method SendLinkTime(now: int)
      modifies `out, `lastLt
      ensures State() == Peers.SendLinkTime(old(State()), now)
    {
      var interval := LT_INTERVAL;
      if kaTerm == '\r' { interval := LT_INTERVAL_PCF; }
      if lastLt != 0 && now - lastLt < interval { return; }
      out := out + [LinkTimeSent(now)];
      lastLt := now;
    }

    /** A keepalive if one is due, and a link time if that is. */
    method Greet(beat: bool, now: int)
      modifies `out, `lastLt
      ensures State() == Peers.SendLinkTime(if beat then Peers.SendKeepalive(old(State()), now) else old(State()), now)
    {
      hide Peers.SendLinkTime, Peers.SendKeepalive;
      if beat { SendKeepalive(now); }
      SendLinkTime(now);
    }

    method SendInit(now: int)
      modifies `out, `lastInit
      ensures State() == Peers.SendInit(old(State()), now)
    {
      out := out + [InitSent(now)];
      lastInit := now;
    }

    method SendOwn(deferMark: bool, now: int)
      modifies `out
      ensures State() == Peers.SendOwn(old(State()), deferMark, now)
    {
      out := out + [OwnRecord(now)];
      if !deferMark { out := out + [Mark(now, false, kaTerm != ' ')]; }
      assert deferMark ==> out + [] == out;
    }

    /** A session starts in this slot: nothing of the previous one is left, and our
        INIT and keepalive go out. */
    method Start(now: int, advertAt: int)
      modifies this
      ensures State() == Started(now, advertAt) && Table() == EMPTY_QUEUE
    {
      Clear();
      ClearFlags();
      ClearShape();
      lastInit, lastAdvert, lastLt := now, advertAt, 0;
      wire, out := [], [InitSent(now), KeepaliveSent(now)];
      assert State().account == EMPTY_ACCOUNT;
    }

    method ClearFlags()
      modifies `sentRoutes, `gotInit, `inferred, `quiesced
      ensures !sentRoutes && !gotInit && !inferred && !quiesced
    {
      sentRoutes, gotInit, inferred, quiesced := false, false, false, false;
    }

    method ClearShape()
      modifies `kaLen, `kaTerm
      ensures kaLen == 0 && kaTerm == '\0'
    {
      kaLen, kaTerm := 0, '\0';
    }

    method SetSentRoutes()
      modifies `sentRoutes
      ensures State() == old(State()).(sentRoutes := true)
    {
      sentRoutes := true;
    }

    method ClearSentRoutes()
      modifies `sentRoutes
      ensures State() == old(State()).(sentRoutes := false)
    {
      sentRoutes := false;
    }

    method SetGotInit()
      modifies `gotInit
      ensures State() == old(State()).(gotInit := true)
    {
      gotInit := true;
    }

    method SetLastAdvert(now: int)
      modifies `lastAdvert
      ensures State() == old(State()).(lastAdvert := now)
    {
      lastAdvert := now;
    }

    method SetShape(len: nat, term: char)
      modifies `kaLen, `kaTerm
      ensures State() == old(State()).(kaLen := len, kaTerm := term)
    {
      kaLen, kaTerm := len, term;
    }

    method OweMark()
      modifies `eobPending
      ensures State() == old(State()).(account := AdvRuns.After(old(State()).account, Owe))
    {
      eobPending := true;
    }

    /** A '3+' reopens a closed exchange. */
    method Reopen(now: int)
      modifies `out, `quiesced
      ensures State() == old(State()).(quiesced := false, out := old(out) + [Asked(now)])
    {
      if quiesced { quiesced := false; }
      out := out + [Asked(now)];
    }

    method GuessShape(long: bool, now: int)
      modifies `out, `kaLen, `kaTerm
      ensures State() == Peers.GuessShape(old(State()), long, now)
    {
      if kaLen == 0 {
        if long {
          kaLen, kaTerm := KA_LEN_PCF, '\r';
          SendKeepalive(now);
        } else {
          kaLen, kaTerm := KA_LEN, ' ';
        }
      }
    }

    method Forget(ghost why: Item)
      modifies this
      ensures State() == Peers.Forget(old(State()), why) && Table() == EMPTY_QUEUE && wire == old(wire)
    {
      ghost var p := State();
      Clear();
      sentRoutes, quiesced := false, false;
      out := out + [why];
      assert State().account == EMPTY_ACCOUNT;
      assert State() == Peer(EMPTY_ACCOUNT, false, p.gotInit, p.inferred, false, p.kaLen, p.kaTerm, p.lastInit,
                             p.lastAdvert, p.lastLt, p.out + [why]);
    }

    /** The neighbour's table is cleared: it is told everything again. */
    method Clear()
      modifies `advs, `tokens, `lastRefill, `eobPending, `eobSince, `log, `direct
      ensures Table() == EMPTY_QUEUE && log == [] && direct == {}
    {
      advs, tokens, lastRefill, eobPending, eobSince := [], 0.0, 0, false, 0;
      log, direct := [], {};
    }
  }

  lemma {:induction false} NoTransitNoDrain(cfg: Config, p: Peer, now: int)
    requires AllOk(p.account.q.advs) && !cfg.transit
    ensures DrainPeer(cfg, p, now) == p
  {
  }

  lemma {:induction false} IdleDrain(cfg: Config, p: Peer, now: int)
    requires AllOk(p.account.q.advs) && cfg.transit && !AnyQueued(p.account.q.advs) && !p.account.q.eobPending
    ensures DrainPeer(cfg, p, now) == p
    ensures DrainOnce(p.account.q, !Allowed(cfg, p), p.Pcf(), now) == Drained(p.account.q, [], false)
  {
    hide AllOk;
    NothingSent([], p.account.log, p.out, p.account.direct, now);
  }

  lemma {:induction false} NothingSent(wire: seq<string>, log: seq<Sent>, out: seq<Item>, direct: set<Key>, now: int)
    ensures wire + Packed([]) == wire && wire + [] == wire && out + Sends([], now) == out && out + [] == out
    ensures log + Stamped(Flatten([]), direct, now) == log && FramesWritable([])
  {
  }

  predicate FramesWritable(frames: seq<seq<Rec>>) { forall i :: 0 <= i < |frames| ==> AllWritable(frames[i]) }

  lemma {:induction false} PackedSnoc(frames: seq<seq<Rec>>, recs: seq<Rec>)
    requires FramesWritable(frames) && AllWritable(recs)
    ensures FramesWritable(frames + [recs]) && Packed(frames + [recs]) == Packed(frames) + ["3" + PackRecs(recs) + "\r"]
  {
    hide PackRecs;
  }

  /** The next frame, seen from the table with its first entries sent. */
  lemma {:induction false} FrameGoesOn(advs: seq<Adv>, n: nat, max: nat, now: int)
    requires AllOk(advs) && n <= |advs| && AllOk(Emitted(advs, n, now)) && max >= 1
    ensures var r := Emitted(advs, n, now); var e := FrameEnd(advs, n, 1, 0, max);
            FrameEnd(r, 0, 1, 0, max) == e && QueuedRecs(r, 0, e) == QueuedRecs(advs, n, e)
  {
    hide AllOk, FrameEnd, QueuedRecs;
    var r := Emitted(advs, n, now);
    IdleEnd(r, 0, n, 1, 0, max);
    SameFrameEnd(r, advs, n, 1, 0, max);
    var e := FrameEnd(advs, n, 1, 0, max);
    QueuedSplit(r, 0, n, e);
    NothingQueuedNoRecs(r, 0, n);
    SameQueued(r, advs, n, e);
    assert [] + QueuedRecs(r, n, e) == QueuedRecs(r, n, e);
  }

  lemma {:induction false} SameFrameEnd(a: seq<Adv>, b: seq<Adv>, i: nat, used: nat, count: nat, max: nat)
    requires AllOk(a) && AllOk(b) && |a| == |b| && i <= |a| && forall k :: i <= k < |a| ==> a[k] == b[k]
    ensures FrameEnd(a, i, used, count, max) == FrameEnd(b, i, used, count, max)
    decreases |a| - i
  {
    hide AllOk, RecLen, FrameEnd;
    if i == |a| || count >= max {
      FrameIsFull(a, i, used, count, max);
      FrameIsFull(b, i, used, count, max);
    } else {
      FrameEndStep(a, i, used, count, max);
      FrameEndStep(b, i, used, count, max);
      SameFrameEnd(a, b, i + 1, used, count, max);
      EntryOk(a, i);
      if a[i].pending { SameFrameEnd(a, b, i + 1, used + RecLen(a[i]), count + 1, max); }
    }
  }

  lemma {:induction false} SameQueued(a: seq<Adv>, b: seq<Adv>, i: nat, n: nat)
    requires |a| == |b| && i <= n <= |a| && forall k :: i <= k < |a| ==> a[k] == b[k]
    ensures QueuedRecs(a, i, n) == QueuedRecs(b, i, n)
    decreases n - i
  {
    if i < n { SameQueued(a, b, i + 1, n); }
  }

  lemma {:induction false} EmittedTwice(advs: seq<Adv>, n: nat, k: nat, now: int)
    requires n <= k <= |advs|
    ensures Emitted(Emitted(advs, n, now), k, now) == Emitted(advs, k, now)
  {
  }

  lemma {:induction false} IdleEmitted(advs: seq<Adv>, n: nat, k: nat, now: int)
    requires n <= k <= |advs| && QueuedRecs(advs, n, k) == []
    ensures Emitted(advs, n, now) == Emitted(advs, k, now)
  {
    NothingQueuedNoRecs(advs, n, k);
  }

  lemma {:induction false} NothingSentYet(advs: seq<Adv>, now: int)
    ensures Emitted(advs, 0, now) == advs && QueuedRecs(advs, 0, 0) == [] && PackRecs([]) == ""
  {
  }

  lemma {:induction false} OnlyThree(recs: seq<Rec>, frame: string)
    requires recs == [] && frame == "3" + PackRecs(recs)
    ensures |frame| == 1
  {
  }

  /** Entries without a record waiting make no difference to a frame. */
  lemma {:induction false} SkipIdle(advs: seq<Adv>, k: nat, p: nat, used: nat, count: nat, max: nat, now: int)
    requires AllOk(advs) && k <= |advs| && p <= |advs| && count < max
    requires forall j :: 0 <= j < p ==> !Emitted(advs, k, now)[j].pending
    requires p < |advs| ==> Emitted(advs, k, now)[p].pending
    ensures k <= p && Emitted(advs, k, now) == Emitted(advs, p, now) &&
            (p < |advs| ==> advs[p].pending && Emitted(advs, p, now)[p] == advs[p])
    ensures FrameEnd(advs, k, used, count, max) == FrameEnd(advs, p, used, count, max)
    ensures QueuedRecs(advs, 0, k) == QueuedRecs(advs, 0, p)
  {
    hide AllOk, AdvOk;
    forall j | k <= j < p ensures !advs[j].pending { assert Emitted(advs, k, now)[j] == advs[j]; }
    IdleEnd(advs, k, p, used, count, max);
    QueuedSplit(advs, 0, k, p);
    NothingQueuedNoRecs(advs, k, p);
    assert QueuedRecs(advs, 0, k) + [] == QueuedRecs(advs, 0, k);
  }

  lemma {:induction false} IdleEnd(advs: seq<Adv>, k: nat, p: nat, used: nat, count: nat, max: nat)
    requires AllOk(advs) && k <= p <= |advs| && count < max && forall j :: k <= j < p ==> !advs[j].pending
    ensures FrameEnd(advs, k, used, count, max) == FrameEnd(advs, p, used, count, max)
    decreases p - k
  {
    hide AllOk;
    if k < p { IdleEnd(advs, k + 1, p, used, count, max); }
  }

  lemma {:induction false} OneMore(advs: seq<Adv>, p: nat, recs: seq<Rec>, now: int)
    requires AllOk(advs) && p < |advs| && advs[p].pending && recs == QueuedRecs(advs, 0, p) && AllWritable(recs)
    ensures AllWritable(recs + [RecOf(advs[p])]) && recs + [RecOf(advs[p])] == QueuedRecs(advs, 0, p + 1)
    ensures PackRecs(recs + [RecOf(advs[p])]) == PackRecs(recs) + RouteRec(RecOf(advs[p]))
    ensures Emitted(advs, p, now)[p := Committed(advs[p], now)] == Emitted(advs, p + 1, now)
  {
    hide RouteRec;
    QueuedSplit(advs, 0, p, p + 1);
    assert QueuedRecs(advs, p, p + 1) == [RecOf(advs[p])];
    EntryOk(advs, p);
    PackRecsSnoc(recs, RecOf(advs[p]));
  }
}
