/** A session read off from outside: everything but the learned records is determined by
  * the events so far and by what has gone out.
  */
module Sessions {
  import opened Advertise
  import opened CompactCodec
  import opened Drain
  import opened AdvRuns
  import opened Peers
  import opened PeerRuns
  import opened Answers
  import opened Handshake

  // ----- what an observer notes

  /** All that goes out besides records and owed marks. */
  function Spoken(out: seq<Item>): seq<Item>
  {
    if out == [] then []
    else
      var x := out[|out| - 1];
      Spoken(out[..|out| - 1]) + (if x.Records? || (x.Mark? && x.owed) then [] else [x])
  }

  /** Our own record has gone out since the last handshake, and the table was not
      cleared since. */
  predicate Introduced(out: seq<Item>)
  {
    out != [] && var x := out[|out| - 1];
    x.OwnRecord? || (!x.InitSent? && !x.InitAnswered? && !x.LinkRestarted? && Introduced(out[..|out| - 1]))
  }

  /** Time of the last link time sent, 0 if there is none. */
  function LastLinkTimeAt(out: seq<Item>): int
  {
    if out == [] then 0
    else if out[|out| - 1].LinkTimeSent? then out[|out| - 1].at else LastLinkTimeAt(out[..|out| - 1])
  }

  /** Time of the last '3-' that was not owed, which ends an advertisement of our own
      accord; `start` if there is none. */
  function LastMarkAt(out: seq<Item>, start: int): int
  {
    if out == [] then start
    else if StrayMark(out[|out| - 1]) then out[|out| - 1].at else LastMarkAt(out[..|out| - 1], start)
  }

  /** Length and terminator of the neighbour's keepalives: those of the last one of a
      possible length; until there is one, what the length of its INIT suggests. */
  function ShapeOf(es: seq<Event>): (int, char)
  {
    if es == [] then (0, '\0')
    else
      var n := |es| - 1;
      var shape := ShapeOf(es[..n]);
      match es[n]
      case GotKeepalive(len, term, _, _, _, _) => if 2 <= len <= 241 then (len, term) else shape
      case GotInit(long, _, _) => if shape.0 != 0 then shape else if long then (201, '\r') else (241, ' ')
      case _ => shape
  }

  /** An (X)Net neighbour's keepalives end with a space. */
  predicate IsPcf(shape: (int, char)) { shape.1 != ' ' }

  // ----- what the session says next

  /** A link time is due: the last one is 20 seconds old, or 320 with a neighbour whose
      keepalives end with a carriage return. */
  predicate LinkTimeDue(out: seq<Item>, shape: (int, char), now: int)
  {
    LastLinkTimeAt(out) == 0 || now - LastLinkTimeAt(out) >= (if shape.1 == '\r' then 320 else 20)
  }

  function Introduction(shape: (int, char), now: int): seq<Item> { [OwnRecord(now), Mark(now, false, IsPcf(shape))] }

  /** The refresh is due: our record is out, the exchange is not closed, no '3-' is owed,
      and 120 seconds have passed. */
  predicate RefreshDue(cfg: Config, out: seq<Item>, start: int, now: int)
  {
    Introduced(out) && !(cfg.quiesce && Shut(out)) && !Owing(out) && now - LastMarkAt(out, start) >= 120
  }

  /** What an event makes the session say, after the events `es` and with `out` gone
      out. `start` is the time of the last refresh that came with the learned table. */
  function Says(cfg: Config, es: seq<Event>, out: seq<Item>, start: int, e: Event): seq<Item>
  {
    var heard, was, shape := HeardOf(es), ShapeOf(es), ShapeOf(es + [e]);
    match e
    case GotInit(long, _, now) =>
      var answers := heard && GuardOver(LastInitAt(out), now);
      (if was.0 == 0 && long then [KeepaliveSent(now)] else [])
      + (if answers then [InitSent(now), KeepaliveSent(now), InitAnswered(now)] else [])
      + (if answers || !Introduced(out) then Introduction(shape, now) else [])
    case GotKeepalive(_, _, up, echo, _, now) =>
      (if echo then [KeepaliveSent(now)] else [])
      + (if LinkTimeDue(out, shape, now) then [LinkTimeSent(now)] else [])
      + (if !Introduced(out) && (heard || up) then Introduction(shape, now) else [])
    case GotLinkTime(_, now) => if LinkTimeDue(out, was, now) then [LinkTimeSent(now)] else []
    case GotRequest(_, _, now) =>
      [Asked(now), OwnRecord(now)] + (if cfg.transit then [] else [Mark(now, false, IsPcf(was))])
    case Timer(beat, _, _, now) =>
      (if beat then [KeepaliveSent(now)] + (if LinkTimeDue(out, was, now) then [LinkTimeSent(now)] else []) else [])
      + (if cfg.transit && RefreshDue(cfg, out, start, now) then Introduction(was, now) else [])
      + (if cfg.transit && !Introduced(out) && heard then Introduction(was, now) else [])
    case Restarted(now) => if cfg.quiesce && Shut(out) then [LinkRestarted(now)] else []
    case Rehandshake(now) => if heard then [] else [InitSent(now), KeepaliveSent(now)]
    case _ => []
  }

  // ----- the session's fields mirror what has gone out

  predicate Mirrors(cfg: Config, p: Peer, start: int)
  {
    && (p.sentRoutes <==> Introduced(p.out))
    && (p.quiesced <==> cfg.quiesce && Shut(p.out))
    && (cfg.transit ==> (p.account.q.eobPending <==> Owing(p.out)) && p.lastAdvert == LastMarkAt(p.out, start))
    && p.lastLt == LastLinkTimeAt(p.out) && p.lastInit == LastInitAt(p.out)
  }

  /** Everything an observer notes of `out`. */
  datatype Notes = Notes(spoken: seq<Item>, introduced: bool, shut: bool, owing: bool, lt: int, mark: int, init: int)

  function Of(out: seq<Item>, start: int): Notes
  {
    Notes(Spoken(out), Introduced(out), Shut(out), Owing(out), LastLinkTimeAt(out), LastMarkAt(out, start),
      LastInitAt(out))
  }

  /** And of one more item. */
  function Noting(n: Notes, x: Item): Notes
  {
    match x
    case Records(_, _) => n
    case Mark(at, owed, pcf) =>
      if owed then n.(owing := false, shut := n.shut || pcf) else n.(spoken := n.spoken + [x], mark := at)
    case InitSent(at) => n.(spoken := n.spoken + [x], introduced := false, init := at)
    case KeepaliveSent(_) => n.(spoken := n.spoken + [x])
    case LinkTimeSent(at) => n.(spoken := n.spoken + [x], lt := at)
    case OwnRecord(_) => n.(spoken := n.spoken + [x], introduced := true)
    case Asked(_) => n.(spoken := n.spoken + [x], owing := true, shut := false)
    case _ => n.(spoken := n.spoken + [x], introduced := false, owing := false, shut := false)
  }

  lemma {:induction false} OfSnoc(out: seq<Item>, start: int, x: Item)
    ensures Of(out + [x], start) == Noting(Of(out, start), x)
  {
    hide Spoken, Introduced, LastLinkTimeAt, LastMarkAt, LastInitAt, Shut, Owing;
    ShutSnoc(out, x);
    OwingSnoc(out, x);
    InitsSnoc(out, x);
    OthersSnoc(out, start, x);
  }

  lemma {:induction false} OthersSnoc(out: seq<Item>, start: int, x: Item)
    ensures Spoken(out + [x]) == Spoken(out) + (if x.Records? || (x.Mark? && x.owed) then [] else [x])
    ensures Introduced(out + [x]) ==
            (x.OwnRecord? || (!x.InitSent? && !x.InitAnswered? && !x.LinkRestarted? && Introduced(out)))
    ensures LastLinkTimeAt(out + [x]) == if x.LinkTimeSent? then x.at else LastLinkTimeAt(out)
    ensures LastMarkAt(out + [x], start) == if StrayMark(x) then x.at else LastMarkAt(out, start)
    ensures Spoken(out) + [] == Spoken(out)
  {
    assert (out + [x])[..|out|] == out;
  }

  // ----- drains and walks say nothing of their own

  /** Only the table, the exchange and what it sent differ; if the '3-' went out
      (`eob`), it closes the exchange of a PC/Flexnet neighbour. */
  predicate Drains(cfg: Config, p: Peer, r: Peer, start: int, eob: bool)
  {
    && r == p.(account := r.account, out := r.out, quiesced := p.quiesced || (eob && cfg.quiesce && p.Pcf()))
    && Of(r.out, start) ==
         (if eob then Of(p.out, start).(owing := false, shut := Of(p.out, start).shut || p.Pcf()) else Of(p.out, start))
    && r.account.q.eobPending == (p.account.q.eobPending && !eob)
  }

  lemma {:induction false} SendsNoted(out: seq<Item>, frames: seq<seq<Rec>>, now: int, start: int)
    ensures Of(out + Sends(frames, now), start) == Of(out, start)
    decreases |frames|
  {
    hide Of;
    if frames == [] {
      assert out + Sends(frames, now) == out;
    } else {
      var n := |frames| - 1;
      SendsNoted(out, frames[..n], now, start);
      OfSnoc(out + Sends(frames[..n], now), start, Records(frames[n], now));
      assert out + Sends(frames, now) == (out + Sends(frames[..n], now)) + [Records(frames[n], now)];
    }
  }

  lemma {:induction false} DrainOwes(q: Queue, closed: bool, pcf: bool, now: int)
    requires AllOk(q.advs)
    ensures var d := DrainOnce(q, closed, pcf, now);
            d.q.eobPending == (q.eobPending && !d.eob) && (d.eob ==> q.eobPending)
  {
    hide AllOk, Frames, AnyQueued, Refilled, Emitted;
  }

  lemma {:induction false} DrainNoted(cfg: Config, p: Peer, now: int, start: int) returns (eob: bool)
    requires AllOk(p.account.q.advs)
    ensures Drains(cfg, p, DrainPeer(cfg, p, now), start, eob)
  {
    hide Of, DrainOnce, AllOk;
    eob := false;
    if cfg.transit {
      var closed, pcf := !Allowed(cfg, p), p.Pcf();
      var d := DrainOnce(p.account.q, closed, pcf, now);
      PeerAfterDrain(cfg, p, now, d);
      DrainOwes(p.account.q, closed, pcf, now);
      eob := d.eob;
      var out := p.out + Sends(d.frames, now);
      SendsNoted(p.out, d.frames, now, start);
      OfSnoc(out, start, Mark(now, true, pcf));
      assert out + [] == out;
    }
  }

  lemma {:induction false} WalkNoted(cfg: Config, p: Peer, walk: Walk, now: int)
    requires AllOk(p.account.q.advs) && WalkOk(walk, now)
    ensures var r := CheckAll(cfg, p, walk, now).0;
            r == p.(account := r.account) && r.account.q.eobPending == p.account.q.eobPending
    decreases |walk|
  {
    hide AllOk, Checked, DirectAfter, MayCheck, IsQueued;
    if walk != [] { WalkNoted(cfg, p, walk[..|walk| - 1], now); }
  }

  /** The walk and the drain of an advertisement of our own accord. */
  lemma {:induction false} SeedNoted(cfg: Config, p: Peer, walk: Walk, now: int, start: int)
    returns (eob: bool, eob': bool)
    requires AllOk(p.account.q.advs) && WalkOk(walk, now)
    ensures var q := p.(lastAdvert := if cfg.transit then now else p.lastAdvert);
            && Drains(cfg, q, Seed(cfg, p, walk, now), start, eob)
            && Drains(cfg, q, Neighbours(cfg, p, walk, now), start, eob')
  {
    hide Of, CheckAll, DrainPeer, AllOk;
    var b := CheckAll(cfg, p, walk, now);
    WalkNoted(cfg, p, walk, now);
    eob := DrainNoted(cfg, b.0, now, start);
    eob' := eob;
    if !b.1 || !cfg.transit { eob := false; }
    if walk == [] || !cfg.transit { eob' := false; }
  }

  /** Our own record, its mark, the walk and the drain. */
  lemma {:induction false} IntroduceNoted(cfg: Config, p: Peer, walk: Walk, now: int, start: int) returns (eob: bool)
    requires AllOk(p.account.q.advs) && WalkOk(walk, now)
    ensures var q := p.(sentRoutes := true, lastAdvert := if cfg.transit then now else p.lastAdvert,
                        out := p.out + [OwnRecord(now), Mark(now, false, p.Pcf())]);
            Drains(cfg, q, Introduce(cfg, p, walk, now), start, eob)
  {
    hide Of, Seed, AllOk, Neighbours;
    assert p.out + [OwnRecord(now)] + [Mark(now, false, p.Pcf())] ==
      p.out + [OwnRecord(now), Mark(now, false, p.Pcf())];
    var q := SendOwn(p, false, now).(sentRoutes := true);
    var other;
    eob, other := SeedNoted(cfg, q, walk, now, start);
  }

  lemma {:induction false} IntroductionNoted(out: seq<Item>, start: int, now: int, pcf: bool)
    ensures var n := Of(out, start);
            Of(out + [OwnRecord(now), Mark(now, false, pcf)], start) ==
            n.(spoken := n.spoken + [OwnRecord(now), Mark(now, false, pcf)], introduced := true, mark := now)
  {
    hide Of;
    OfSnoc(out, start, OwnRecord(now));
    OfSnoc(out + [OwnRecord(now)], start, Mark(now, false, pcf));
    assert out + [OwnRecord(now), Mark(now, false, pcf)] == out + [OwnRecord(now)] + [Mark(now, false, pcf)];
  }

  /** What mirroring asks of a session, from the notes on what it sent. */
  predicate Fits(cfg: Config, p: Peer, n: Notes)
  {
    && (p.sentRoutes <==> n.introduced) && (p.quiesced <==> cfg.quiesce && n.shut)
    && (cfg.transit ==> (p.account.q.eobPending <==> n.owing) && p.lastAdvert == n.mark)
    && p.lastLt == n.lt && p.lastInit == n.init
  }

  lemma {:induction false} MirrorsIsFits(cfg: Config, p: Peer, start: int)
    ensures Mirrors(cfg, p, start) <==> Fits(cfg, p, Of(p.out, start))
  {
    hide Introduced, Shut, Owing, LastLinkTimeAt, LastMarkAt, LastInitAt, Spoken;
  }

  lemma {:induction false} DrainFits(cfg: Config, p: Peer, r: Peer, start: int, eob: bool)
    requires Fits(cfg, p, Of(p.out, start)) && Drains(cfg, p, r, start, eob)
    ensures Fits(cfg, r, Of(r.out, start)) && Of(r.out, start).spoken == Of(p.out, start).spoken
  {
    hide Of;
  }

  /** The initial advertisement, or a refresh of one, from a session in step. */
  lemma {:induction false} IntroduceFits(cfg: Config, p: Peer, walk: Walk, now: int, start: int)
    requires AllOk(p.account.q.advs) && WalkOk(walk, now) && Fits(cfg, p, Of(p.out, start))
    ensures var r := Introduce(cfg, p, walk, now); var n := Of(r.out, start);
            && Fits(cfg, r, n)
            && n.spoken == Of(p.out, start).spoken + [OwnRecord(now), Mark(now, false, p.Pcf())]
            && r == p.(account := r.account, out := r.out, quiesced := r.quiesced, sentRoutes := true,
                       lastAdvert := if cfg.transit then now else p.lastAdvert)
  {
    hide Of, Introduce, AllOk;
    var eob := IntroduceNoted(cfg, p, walk, now, start);
    IntroductionNoted(p.out, start, now, p.Pcf());
    var q := p.(sentRoutes := true, lastAdvert := if cfg.transit then now else p.lastAdvert,
                out := p.out + [OwnRecord(now), Mark(now, false, p.Pcf())]);
    DrainFits(cfg, q, Introduce(cfg, p, walk, now), start, eob);
  }

  lemma {:induction false} ItemFits(cfg: Config, p: Peer, start: int, now: int)
    requires Fits(cfg, p, Of(p.out, start))
    ensures var k := SendKeepalive(p, now); var n := Of(k.out, start);
            Fits(cfg, k, n) && n == Of(p.out, start).(spoken := Of(p.out, start).spoken + [KeepaliveSent(now)])
    ensures var k := SendLinkTime(p, now); var n := Of(k.out, start);
            var due := p.lastLt == 0 || now - p.lastLt >= (if p.kaTerm == '\r' then 320 else 20);
            && Fits(cfg, k, n) && k == p.(out := k.out, lastLt := k.lastLt)
            && n == (if due then Of(p.out, start).(spoken := Of(p.out, start).spoken + [LinkTimeSent(now)], lt := now)
                     else Of(p.out, start))
  {
    hide Of;
    OfSnoc(p.out, start, KeepaliveSent(now));
    OfSnoc(p.out, start, LinkTimeSent(now));
  }
  // ----- one event

  /** What is known of a session after the events `es`. */
  predicate InTune(cfg: Config, p: Peer, es: seq<Event>, start: int)
  {
    Fits(cfg, p, Of(p.out, start)) && (p.Established() <==> HeardOf(es)) && (p.kaLen, p.kaTerm) == ShapeOf(es)
  }

  /** The event has said `said`, and the session is still in tune. */
  predicate Said(cfg: Config, p: Peer, r: Peer, start: int, said: seq<Item>)
  {
    Fits(cfg, r, Of(r.out, start)) && Of(r.out, start).spoken == Of(p.out, start).spoken + said
  }

  lemma {:induction false} SaidNothing(cfg: Config, p: Peer, r: Peer, start: int)
    requires Fits(cfg, p, Of(p.out, start)) && r.out == p.out
    requires r == p.(account := r.account, gotInit := r.gotInit, inferred := r.inferred, kaLen := r.kaLen,
                     kaTerm := r.kaTerm)
    requires r.account.q.eobPending == p.account.q.eobPending
    ensures Said(cfg, p, r, start, [])
  {
    hide Of;
    assert Of(p.out, start).spoken + [] == Of(p.out, start).spoken;
  }

  lemma {:induction false} SaidMore(cfg: Config, p: Peer, q: Peer, r: Peer, start: int, a: seq<Item>, b: seq<Item>)
    requires Said(cfg, p, q, start, a) && Said(cfg, q, r, start, b)
    ensures Said(cfg, p, r, start, a + b)
  {
    hide Of;
    assert Of(p.out, start).spoken + a + b == Of(p.out, start).spoken + (a + b);
  }

  lemma {:induction false} DrainSaid(cfg: Config, p: Peer, now: int, start: int)
    requires AllOk(p.account.q.advs) && Fits(cfg, p, Of(p.out, start))
    ensures Said(cfg, p, DrainPeer(cfg, p, now), start, [])
  {
    hide Of, DrainPeer, AllOk;
    var eob := DrainNoted(cfg, p, now, start);
    DrainFits(cfg, p, DrainPeer(cfg, p, now), start, eob);
    assert Of(p.out, start).spoken + [] == Of(p.out, start).spoken;
  }

  lemma {:induction false} IntroduceSaid(cfg: Config, p: Peer, walk: Walk, now: int, start: int, shape: (int, char))
    requires AllOk(p.account.q.advs) && WalkOk(walk, now) && Fits(cfg, p, Of(p.out, start))
    requires shape == (p.kaLen, p.kaTerm)
    ensures Said(cfg, p, Introduce(cfg, p, walk, now), start, Introduction(shape, now))
    ensures var r := Introduce(cfg, p, walk, now);
            (r.kaLen, r.kaTerm) == shape && r.gotInit == p.gotInit && r.inferred == p.inferred
  {
    hide Of, Introduce, AllOk;
    IntroduceFits(cfg, p, walk, now, start);
  }

  lemma {:induction false} LinkTimeSaid(cfg: Config, p: Peer, now: int, start: int, shape: (int, char))
    requires Fits(cfg, p, Of(p.out, start)) && shape == (p.kaLen, p.kaTerm)
    ensures Said(cfg, p, SendLinkTime(p, now), start,
              if LinkTimeDue(p.out, shape, now) then [LinkTimeSent(now)] else [])
    ensures Said(cfg, p, SendKeepalive(p, now), start, [KeepaliveSent(now)])
  {
    hide Spoken, Introduced, Shut, Owing, LastLinkTimeAt, LastMarkAt, LastInitAt, SendLinkTime;
    ItemFits(cfg, p, start, now);
    assert Of(p.out, start).spoken + [] == Of(p.out, start).spoken;
  }

  lemma {:induction false} LinkTimeOnly(p: Peer, now: int)
    ensures var r := SendLinkTime(p, now); r == p.(out := r.out, lastLt := r.lastLt)
  {
  }

  lemma {:induction false} HeardMore(es: seq<Event>, e: Event)
    ensures HeardOf(es + [e]) <==> HeardOf(es) || Hears(e)
  {
    var all := es + [e];
    if i :| 0 <= i < |es| && Hears(es[i]) { assert Hears(all[i]); }
    if Hears(e) { assert Hears(all[|es|]); }
    if i :| 0 <= i < |all| && Hears(all[i]) { assert i < |es| ==> Hears(es[i]); }
  }

  lemma {:induction false} ShapeSnoc(es: seq<Event>, e: Event)
    ensures ShapeOf(es + [e]) ==
            match e
            case GotKeepalive(len, term, _, _, _, _) => if 2 <= len <= 241 then (len, term) else ShapeOf(es)
            case GotInit(long, _, _) =>
              if ShapeOf(es).0 != 0 then ShapeOf(es) else if long then (201, '\r') else (241, ' ')
            case _ => ShapeOf(es)
  {
    assert (es + [e])[..|es|] == es;
  }

  lemma {:induction false} GuessSaid(cfg: Config, p: Peer, long: bool, now: int, start: int)
    requires Fits(cfg, p, Of(p.out, start))
    ensures Said(cfg, p, GuessShape(p, long, now), start, if p.kaLen == 0 && long then [KeepaliveSent(now)] else [])
    ensures var r := GuessShape(p, long, now);
            && r == p.(out := r.out, kaLen := r.kaLen, kaTerm := r.kaTerm)
            && (r.kaLen, r.kaTerm) ==
                 (if p.kaLen != 0 then (p.kaLen, p.kaTerm) else if long then (201, '\r') else (241, ' '))
  {
    hide Of;
    var a := p.(kaLen := KA_LEN_PCF, kaTerm := '\r');
    SaidNothing(cfg, p, a, start);
    LinkTimeSaid(cfg, a, now, start, (a.kaLen, a.kaTerm));
    SaidMore(cfg, p, a, SendKeepalive(a, now), start, [], [KeepaliveSent(now)]);
    assert [] + [KeepaliveSent(now)] == [KeepaliveSent(now)];
    SaidNothing(cfg, p, p, start);
    SaidNothing(cfg, p, GuessShape(p, false, now), start);
  }

  /** Our INIT and keepalive again, and the table cleared. */
  lemma {:induction false} AnswerSaid(cfg: Config, p: Peer, now: int, start: int)
    requires Fits(cfg, p, Of(p.out, start))
    ensures var r := Forget(SendKeepalive(SendInit(p, now), now), InitAnswered(now));
            && Said(cfg, p, r, start, [InitSent(now), KeepaliveSent(now), InitAnswered(now)])
            && !r.sentRoutes && r.kaLen == p.kaLen && r.kaTerm == p.kaTerm
            && r.gotInit == p.gotInit && r.inferred == p.inferred
  {
    hide Of;
    var a := SendInit(p, now);
    var b := SendKeepalive(a, now);
    OfSnoc(p.out, start, InitSent(now));
    OfSnoc(a.out, start, KeepaliveSent(now));
    OfSnoc(b.out, start, InitAnswered(now));
    assert Of(p.out, start).spoken + [InitSent(now)] + [KeepaliveSent(now)] + [InitAnswered(now)] ==
      Of(p.out, start).spoken + [InitSent(now), KeepaliveSent(now), InitAnswered(now)];
  }

  /** The shape guessed, and our INIT again if the neighbour's is answered. */
  function Greeted(p: Peer, answers: bool, long: bool, now: int): Peer
  {
    var p1 := GuessShape(p, long, now);
    if answers then Forget(SendKeepalive(SendInit(p1, now), now), InitAnswered(now)) else p1
  }

  lemma {:induction false} GreetedSaid(cfg: Config, p: Peer, answers: bool, long: bool, now: int, start: int)
    requires Fits(cfg, p, Of(p.out, start))
    ensures var r := Greeted(p, answers, long, now);
            && Said(cfg, p, r, start,
                 (if p.kaLen == 0 && long then [KeepaliveSent(now)] else []) +
                   (if answers then [InitSent(now), KeepaliveSent(now), InitAnswered(now)] else []))
            && (r.kaLen, r.kaTerm) ==
                 (if p.kaLen != 0 then (p.kaLen, p.kaTerm) else if long then (201, '\r') else (241, ' '))
            && r.gotInit == p.gotInit && r.inferred == p.inferred
            && r.sentRoutes == (p.sentRoutes && !answers)
            && r.account == (if answers then EMPTY_ACCOUNT else p.account)
  {
    hide Of, Said, Fits;
    var p1 := GuessShape(p, long, now);
    var s1 := if p.kaLen == 0 && long then [KeepaliveSent(now)] else [];
    GuessSaid(cfg, p, long, now, start);
    SaidFits(cfg, p, p1, start);
    AnswerSaid(cfg, p1, now, start);
    SaidNothing(cfg, p1, p1, start);
    SaidMore(cfg, p, p1, Greeted(p, answers, long, now), start, s1,
      if answers then [InitSent(now), KeepaliveSent(now), InitAnswered(now)] else []);
  }

  lemma {:induction false} InitIsGreeted(cfg: Config, p: Peer, long: bool, walk: Walk, now: int)
    requires AllOk(p.account.q.advs) && WalkOk(walk, now)
    ensures var p2 := Greeted(p.(gotInit := true), AnswersInit(p, now), long, now);
            && AllOk(p2.account.q.advs)
            && OnInit(cfg, p, long, walk, now) == if !p2.sentRoutes then Introduce(cfg, p2, walk, now) else p2
  {
    hide Introduce, AllOk, WalkOk;
    EmptyIsOk(GuessShape(p.(gotInit := true), long, now), now);
  }

  lemma {:induction false} InitSaid(cfg: Config, p: Peer, es: seq<Event>, start: int, long: bool, walk: Walk, now: int)
    requires AllOk(p.account.q.advs) && WalkOk(walk, now) && InTune(cfg, p, es, start)
    ensures var e: Event := GotInit(long, walk, now); var r := OnInit(cfg, p, long, walk, now);
            && Said(cfg, p, r, start, Says(cfg, es, p.out, start, e))
            && (r.kaLen, r.kaTerm) == ShapeOf(es + [e]) && r.Established()
  {
    hide Of, Said, Introduced, Introduce, HeardOf, ShapeOf, AllOk, WalkOk, Greeted, LastInitAt, Introduction, OnInit;
    FitsInit(cfg, p, start);
    var e: Event := GotInit(long, walk, now);
    ShapeSnoc(es, e);
    var shape := ShapeOf(es + [e]);
    var answers, p0 := AnswersInit(p, now), p.(gotInit := true);
    SaidNothing(cfg, p, p0, start);
    SaidFits(cfg, p, p0, start);
    var p2 := Greeted(p0, answers, long, now);
    GreetedSaid(cfg, p0, answers, long, now, start);
    InitIsGreeted(cfg, p, long, walk, now);
    var s1 := (if p.kaLen == 0 && long then [KeepaliveSent(now)] else []) +
      (if answers then [InitSent(now), KeepaliveSent(now), InitAnswered(now)] else []);
    SaidMore(cfg, p, p0, p2, start, [], s1);
    assert [] + s1 == s1;
    SaidFits(cfg, p, p2, start);
    SaidNothing(cfg, p2, p2, start);
    if !p2.sentRoutes { IntroduceSaid(cfg, p2, walk, now, start, shape); }
    SaidMore(cfg, p, p2, OnInit(cfg, p, long, walk, now), start, s1,
      if !p2.sentRoutes then Introduction(shape, now) else []);
  }

  lemma {:induction false} FitsInit(cfg: Config, p: Peer, start: int)
    requires Fits(cfg, p, Of(p.out, start))
    ensures p.lastInit == LastInitAt(p.out) && (p.sentRoutes <==> Introduced(p.out))
  {
    hide Spoken, Introduced, Shut, Owing, LastLinkTimeAt, LastMarkAt, LastInitAt;
  }

  lemma {:induction false} EmptyIsOk(p: Peer, now: int)
    ensures AllOk(Forget(SendKeepalive(SendInit(p, now), now), InitAnswered(now)).account.q.advs)
  {
  }

  /** The keepalive noted and echoed, and our link time. */
  function Kept(p: Peer, len: nat, term: char, up: bool, echo: bool, now: int): Peer
  {
    var p1 := NoteEstablished(p, up);
    var p2 := if 2 <= len <= KA_LEN then p1.(kaLen := len, kaTerm := term) else p1;
    SendLinkTime(if echo then SendKeepalive(p2, now) else p2, now)
  }

  lemma {:induction false} KeptSaid(cfg: Config, p: Peer, start: int, len: nat, term: char, up: bool, echo: bool,
                                    now: int)
    requires Fits(cfg, p, Of(p.out, start))
    ensures var shape := if 2 <= len <= 241 then (len, term) else (p.kaLen, p.kaTerm);
            var r := Kept(p, len, term, up, echo, now);
            && Said(cfg, p, r, start,
                 (if echo then [KeepaliveSent(now)] else []) +
                   (if LinkTimeDue(p.out, shape, now) then [LinkTimeSent(now)] else []))
            && (r.kaLen, r.kaTerm) == shape && r.sentRoutes == p.sentRoutes && r.account == p.account
            && (r.Established() <==> p.Established() || up)
  {
    hide Of, SendLinkTime, SendKeepalive, LinkTimeDue, Said;
    var shape := if 2 <= len <= 241 then (len as int, term) else (p.kaLen, p.kaTerm);
    var p1 := NoteEstablished(p, up);
    var p2 := if 2 <= len <= KA_LEN then p1.(kaLen := len, kaTerm := term) else p1;
    SaidNothing(cfg, p, p2, start);
    SaidFits(cfg, p, p2, start);
    SaidNothing(cfg, p2, p2, start);
    LinkTimeSaid(cfg, p2, now, start, shape);
    var q := if echo then SendKeepalive(p2, now) else p2;
    var s1 := if echo then [KeepaliveSent(now)] else [];
    SaidMore(cfg, p, p2, q, start, [], s1);
    assert [] + s1 == s1;
    SaidFits(cfg, p, q, start);
    SaysKeepalive(p2, now);
    LinkTimeSaid(cfg, q, now, start, shape);
    LinkTimeOnly(q, now);
    SameLinkTime(p2.out, q.out, shape, now);
    SaidMore(cfg, p, q, SendLinkTime(q, now), start, s1,
      if LinkTimeDue(q.out, shape, now) then [LinkTimeSent(now)] else []);
  }

  lemma {:induction false} KeepaliveSaid(cfg: Config, p: Peer, es: seq<Event>, start: int, len: nat, term: char,
                                         up: bool, echo: bool, walk: Walk, now: int)
    requires AllOk(p.account.q.advs) && WalkOk(walk, now) && InTune(cfg, p, es, start)
    ensures var e: Event := GotKeepalive(len, term, up, echo, walk, now);
            var r := OnKeepalive(cfg, p, len, term, up, echo, walk, now);
            && Said(cfg, p, r, start, Says(cfg, es, p.out, start, e))
            && (r.kaLen, r.kaTerm) == ShapeOf(es + [e]) && (r.Established() <==> p.Established() || up)
  {
    hide Of, Introduced, Shut, Introduce, HeardOf, ShapeOf, AllOk, WalkOk, Kept, LinkTimeDue, Said, Introduction;
    var e: Event := GotKeepalive(len, term, up, echo, walk, now);
    ShapeSnoc(es, e);
    var shape := ShapeOf(es + [e]);
    var p3 := Kept(p, len, term, up, echo, now);
    KeptSaid(cfg, p, start, len, term, up, echo, now);
    SaidFits(cfg, p, p3, start);
    SaidNothing(cfg, p3, p3, start);
    SameIntroduced(cfg, p, p3, start);
    var intro := !p3.sentRoutes && p3.Established();
    if intro { IntroduceSaid(cfg, p3, walk, now, start, shape); }
    var s1 := (if echo then [KeepaliveSent(now)] else []) +
      (if LinkTimeDue(p.out, shape, now) then [LinkTimeSent(now)] else []);
    KeepaliveIsKept(cfg, p, len, term, up, echo, walk, now);
    SaidMore(cfg, p, p3, OnKeepalive(cfg, p, len, term, up, echo, walk, now), start, s1,
      if intro then Introduction(shape, now) else []);
  }

  lemma {:induction false} KeepaliveIsKept(cfg: Config, p: Peer, len: nat, term: char, up: bool, echo: bool, walk: Walk,
                                           now: int)
    requires AllOk(p.account.q.advs) && WalkOk(walk, now)
    ensures var p3 := Kept(p, len, term, up, echo, now);
            && p3.account == p.account
            && OnKeepalive(cfg, p, len, term, up, echo, walk, now) ==
                 if !p3.sentRoutes && p3.Established() then Introduce(cfg, p3, walk, now) else p3
  {
    hide Introduce, AllOk, WalkOk;
  }

  lemma {:induction false} SaysKeepalive(p: Peer, now: int)
    ensures SendKeepalive(p, now) == p.(out := p.out + [KeepaliveSent(now)])
  {
  }

  lemma {:induction false} SameLinkTime(out: seq<Item>, r: seq<Item>, shape: (int, char), now: int)
    requires r == out || r == out + [KeepaliveSent(now)]
    ensures LinkTimeDue(r, shape, now) == LinkTimeDue(out, shape, now)
  {
    hide LastLinkTimeAt;
    OthersSnoc(out, 0, KeepaliveSent(now));
  }

  lemma {:induction false} SameIntroduced(cfg: Config, p: Peer, r: Peer, start: int)
    requires Fits(cfg, p, Of(p.out, start)) && Fits(cfg, r, Of(r.out, start)) && r.sentRoutes == p.sentRoutes
    ensures r.sentRoutes <==> Introduced(p.out)
  {
    hide Spoken, Introduced, Shut, Owing, LastMarkAt, LastInitAt, LastLinkTimeAt;
  }

  /** Our record, and its mark unless one is owed. */
  lemma {:induction false} OwnNoted(p: Peer, deferMark: bool, now: int, start: int)
    ensures var a := p.(quiesced := false, out := p.out + [Asked(now)]); var n := Of(p.out, start);
            var said := [Asked(now), OwnRecord(now)] + (if deferMark then [] else [Mark(now, false, p.Pcf())]);
            && SendOwn(a, deferMark, now) == a.(out := SendOwn(a, deferMark, now).out)
            && Of(SendOwn(a, deferMark, now).out, start) ==
                 n.(spoken := n.spoken + said, owing := true, shut := false, introduced := true,
                    mark := if deferMark then n.mark else now)
  {
    hide Of;
    OfSnoc(p.out, start, Asked(now));
    OfSnoc(p.out + [Asked(now)], start, OwnRecord(now));
    OfSnoc(p.out + [Asked(now)] + [OwnRecord(now)], start, Mark(now, false, p.Pcf()));
    assert p.out + [Asked(now)] + [OwnRecord(now)] + [] == p.out + [Asked(now)] + [OwnRecord(now)];
    var said := Of(p.out, start).spoken;
    assert said + [Asked(now)] + [OwnRecord(now)] == said + ([Asked(now), OwnRecord(now)] + []);
    assert said + [Asked(now)] + [OwnRecord(now)] + [Mark(now, false, p.Pcf())] ==
      said + ([Asked(now), OwnRecord(now)] + [Mark(now, false, p.Pcf())]);
  }

  lemma {:induction false} RequestSaid(cfg: Config, p: Peer, es: seq<Event>, start: int, up: bool, walk: Walk, now: int)
    requires AllOk(p.account.q.advs) && WalkOk(walk, now) && InTune(cfg, p, es, start)
    ensures var e: Event := GotRequest(up, walk, now); var r := OnRequest(cfg, p, up, walk, now);
            && Said(cfg, p, r, start, Says(cfg, es, p.out, start, e))
            && (r.kaLen, r.kaTerm) == ShapeOf(es + [e]) && (r.Established() <==> p.Established() || up)
  {
    hide Of, HeardOf, ShapeOf, AllOk, WalkOk, CheckAll, DrainPeer, SendOwn;
    var e: Event := GotRequest(up, walk, now);
    ShapeSnoc(es, e);
    var p1 := NoteEstablished(p, up);
    OwnNoted(p1, cfg.transit, now, start);
    var p2 := SendOwn(p1.(quiesced := false, out := p1.out + [Asked(now)]), cfg.transit, now);
    if cfg.transit {
      WalkNoted(cfg, p2, walk, now);
      var b := CheckAll(cfg, p2, walk, now).0;
      var d := b.(account := AdvRuns.After(b.account, Owe));
      var eob := DrainNoted(cfg, d, now, start);
      var r := DrainPeer(cfg, d, now).(sentRoutes := true);
      assert Drains(cfg, d.(sentRoutes := true), r, start, eob);
      DrainFits(cfg, d.(sentRoutes := true), r, start, eob);
    }
  }

  lemma {:induction false} BeatSaid(cfg: Config, p: Peer, start: int, beat: bool, now: int)
    requires Fits(cfg, p, Of(p.out, start))
    ensures var r := if beat then SendLinkTime(SendKeepalive(p, now), now) else p;
            && Said(cfg, p, r, start,
                 if beat
                 then [KeepaliveSent(now)] +
                   (if LinkTimeDue(p.out, (p.kaLen, p.kaTerm), now) then [LinkTimeSent(now)] else [])
                 else [])
            && r == p.(out := r.out, lastLt := r.lastLt)
  {
    hide Of, SendLinkTime;
    var q, shape := SendKeepalive(p, now), (p.kaLen, p.kaTerm);
    SaidNothing(cfg, p, p, start);
    LinkTimeSaid(cfg, p, now, start, shape);
    LinkTimeSaid(cfg, q, now, start, shape);
    SameLinkTime(p.out, q.out, shape, now);
    LinkTimeOnly(q, now);
    SaidMore(cfg, p, q, SendLinkTime(q, now), start, [KeepaliveSent(now)],
      if LinkTimeDue(q.out, shape, now) then [LinkTimeSent(now)] else []);
  }

  lemma {:induction false} RefreshSaid(cfg: Config, p: Peer, start: int, refresh: Walk, now: int)
    requires AllOk(p.account.q.advs) && WalkOk(refresh, now) && Fits(cfg, p, Of(p.out, start)) && p.sentRoutes
    requires cfg.transit
    ensures var r := Neighbours(cfg, SendOwn(p.(lastAdvert := now), false, now), refresh, now);
            && Said(cfg, p, r, start, Introduction((p.kaLen, p.kaTerm), now))
            && r == p.(account := r.account, out := r.out, quiesced := r.quiesced, lastAdvert := now)
  {
    hide Of, Neighbours, Seed, AllOk;
    var q := SendOwn(p.(lastAdvert := now), false, now);
    assert p.out + [OwnRecord(now)] + [Mark(now, false, p.Pcf())] ==
      p.out + [OwnRecord(now), Mark(now, false, p.Pcf())];
    IntroductionNoted(p.out, start, now, p.Pcf());
    var other, eob := SeedNoted(cfg, q, refresh, now, start);
    DrainFits(cfg, q, Neighbours(cfg, q, refresh, now), start, eob);
  }

  /** The keepalive and the refresh. */
  function Refreshed(cfg: Config, p: Peer, beat: bool, refresh: Walk, now: int): (r: Peer)
    requires AllOk(p.account.q.advs) && WalkOk(refresh, now)
    ensures AllOk(r.account.q.advs)
  {
    var p0 := if beat then SendLinkTime(SendKeepalive(p, now), now) else p;
    var due := cfg.transit && p0.sentRoutes && Allowed(cfg, p0) && !p0.account.q.eobPending &&
      now - p0.lastAdvert >= ADVERT_INTERVAL;
    if due then Neighbours(cfg, SendOwn(p0.(lastAdvert := now), false, now), refresh, now) else p0
  }

  lemma {:induction false} RefreshedSaid(cfg: Config, p: Peer, start: int, beat: bool, refresh: Walk, now: int)
    requires AllOk(p.account.q.advs) && WalkOk(refresh, now) && Fits(cfg, p, Of(p.out, start))
    ensures var r, shape := Refreshed(cfg, p, beat, refresh, now), (p.kaLen, p.kaTerm);
            && Said(cfg, p, r, start,
                 (if beat
                  then [KeepaliveSent(now)] + (if LinkTimeDue(p.out, shape, now) then [LinkTimeSent(now)] else [])
                  else [])
                 + (if cfg.transit && RefreshDue(cfg, p.out, start, now) then Introduction(shape, now) else []))
            && r == p.(account := r.account, out := r.out, quiesced := r.quiesced, lastAdvert := r.lastAdvert,
                       lastLt := r.lastLt)
  {
    hide Of, AllOk, WalkOk, Neighbours, SendLinkTime, Said, SendOwn, LinkTimeDue, RefreshDue, Introduction;
    var shape := (p.kaLen, p.kaTerm);
    var p0 := if beat then SendLinkTime(SendKeepalive(p, now), now) else p;
    BeatSaid(cfg, p, start, beat, now);
    SaidFits(cfg, p, p0, start);
    DueIsDue(cfg, p, p0, start, now);
    var due := cfg.transit && RefreshDue(cfg, p.out, start, now);
    OwnKeepsTable(p0.(lastAdvert := now), false, now);
    SaidNothing(cfg, p0, p0, start);
    if due { RefreshSaid(cfg, p0, start, refresh, now); }
    var s0 := if beat then [KeepaliveSent(now)] + (if LinkTimeDue(p.out, shape, now) then [LinkTimeSent(now)] else [])
              else [];
    SaidMore(cfg, p, p0, Refreshed(cfg, p, beat, refresh, now), start, s0,
      if due then Introduction(shape, now) else []);
  }

  lemma {:induction false} TimerIsRefreshed(cfg: Config, p: Peer, beat: bool, refresh: Walk, walk: Walk, now: int)
    requires AllOk(p.account.q.advs) && WalkOk(refresh, now) && WalkOk(walk, now)
    ensures var p1 := Refreshed(cfg, p, beat, refresh, now);
            var p2 := if cfg.transit && !p1.sentRoutes && p1.Established() then Introduce(cfg, p1, walk, now) else p1;
            OnTimer(cfg, p, beat, refresh, walk, now) == DrainPeer(cfg, p2, now)
  {
    hide AllOk, WalkOk, Neighbours, SendLinkTime, SendOwn, DrainPeer, Introduce;
  }

  lemma {:induction false} TimerSaid(cfg: Config, p: Peer, es: seq<Event>, start: int, beat: bool, refresh: Walk,
                                     walk: Walk, now: int)
    requires AllOk(p.account.q.advs) && WalkOk(refresh, now) && WalkOk(walk, now) && InTune(cfg, p, es, start)
    ensures var e: Event := Timer(beat, refresh, walk, now); var r := OnTimer(cfg, p, beat, refresh, walk, now);
            && Said(cfg, p, r, start, Says(cfg, es, p.out, start, e))
            && (r.kaLen, r.kaTerm) == ShapeOf(es + [e]) && (r.Established() <==> p.Established())
  {
    hide Of, HeardOf, ShapeOf, AllOk, WalkOk, DrainPeer, Introduce, Said, Refreshed, OnTimer, LinkTimeDue, RefreshDue,
      Introduction, Introduced;
    var e: Event := Timer(beat, refresh, walk, now);
    ShapeSnoc(es, e);
    var shape := ShapeOf(es);
    RefreshedSaid(cfg, p, start, beat, refresh, now);
    TimerIsRefreshed(cfg, p, beat, refresh, walk, now);
    var p1 := Refreshed(cfg, p, beat, refresh, now);
    SaidFits(cfg, p, p1, start);
    SameIntroduced(cfg, p, p1, start);
    var late := cfg.transit && !p1.sentRoutes && p1.Established();
    var p2 := if late then Introduce(cfg, p1, walk, now) else p1;
    SaidNothing(cfg, p1, p1, start);
    if late { IntroduceSaid(cfg, p1, walk, now, start, shape); }
    var s1 := (if beat then [KeepaliveSent(now)] + (if LinkTimeDue(p.out, shape, now) then [LinkTimeSent(now)] else [])
               else []) + (if cfg.transit && RefreshDue(cfg, p.out, start, now) then Introduction(shape, now) else []);
    var s2 := if late then Introduction(shape, now) else [];
    SaidMore(cfg, p, p1, p2, start, s1, s2);
    SaidFits(cfg, p, p2, start);
    DrainSaid(cfg, p2, now, start);
    DrainKeepsShape(cfg, p2, now);
    SaidMore(cfg, p, p2, DrainPeer(cfg, p2, now), start, s1 + s2, []);
    assert s1 + s2 + [] == s1 + s2;
  }

  lemma {:induction false} DrainKeepsShape(cfg: Config, p: Peer, now: int)
    requires AllOk(p.account.q.advs)
    ensures var r := DrainPeer(cfg, p, now); r == p.(account := r.account, out := r.out, quiesced := r.quiesced)
  {
    hide AllOk, DrainOnce;
  }

  lemma {:induction false} SaidFits(cfg: Config, p: Peer, r: Peer, start: int)
    requires exists said :: Said(cfg, p, r, start, said)
    ensures Fits(cfg, r, Of(r.out, start))
  {
  }

  lemma {:induction false} DueIsDue(cfg: Config, p: Peer, q: Peer, start: int, now: int)
    requires Fits(cfg, p, Of(p.out, start)) && q == p.(out := q.out, lastLt := q.lastLt)
    ensures cfg.transit ==>
              (RefreshDue(cfg, p.out, start, now) <==>
                 q.sentRoutes && Allowed(cfg, q) && !q.account.q.eobPending && now - q.lastAdvert >= 120)
    ensures Introduced(p.out) <==> q.sentRoutes
  {
    hide Spoken, Introduced, Shut, Owing, LastMarkAt, LastInitAt, LastLinkTimeAt;
  }
  // ----- whole sessions

  lemma {:induction false} StepSays(cfg: Config, p: Peer, es: seq<Event>, e: Event, start: int)
    requires Feasible(p, e) && InTune(cfg, p, es, start)
    ensures Said(cfg, p, Peers.Step(cfg, p, e), start, Says(cfg, es, p.out, start, e))
    ensures InTune(cfg, Peers.Step(cfg, p, e), es + [e], start)
  {
    hide Of, HeardOf, ShapeOf, AllOk, WalkOk, DrainPeer, CheckAll, OnInit, OnKeepalive, OnRequest, OnTimer,
      SendLinkTime, LinkTimeDue, Introduction, Introduced, RefreshDue, LastInitAt;
    HeardMore(es, e);
    ShapeSnoc(es, e);
    match e {
      case GotInit(long, walk, now) => InitSaid(cfg, p, es, start, long, walk, now);
      case GotKeepalive(len, term, up, echo, walk, now) =>
        KeepaliveSaid(cfg, p, es, start, len, term, up, echo, walk, now);
      case GotLinkTime(up, now) => HeardLinkTime(cfg, p, start, up, now);
      case Heard(up, now) => SaidNothing(cfg, p, NoteEstablished(p, up), start);
      case GotRequest(up, walk, now) => RequestSaid(cfg, p, es, start, up, walk, now);
      case Changed(walk, now) => ChangeSaid(cfg, p, walk, now, start);
      case Timer(beat, refresh, walk, now) => TimerSaid(cfg, p, es, start, beat, refresh, walk, now);
      case Restarted(now) => RestartSaid(cfg, p, now, start);
      case Rehandshake(now) => RehandshakeSaid(cfg, p, now, start);
    }
  }

  lemma {:induction false} HeardLinkTime(cfg: Config, p: Peer, start: int, up: bool, now: int)
    requires Fits(cfg, p, Of(p.out, start))
    ensures var r := SendLinkTime(NoteEstablished(p, up), now);
            && Said(cfg, p, r, start, if LinkTimeDue(p.out, (p.kaLen, p.kaTerm), now) then [LinkTimeSent(now)] else [])
            && (r.Established() <==> p.Established() || up) && r.kaLen == p.kaLen && r.kaTerm == p.kaTerm
  {
    hide Of, SendLinkTime, LinkTimeDue, Said;
    var q := NoteEstablished(p, up);
    SaidNothing(cfg, p, q, start);
    SaidFits(cfg, p, q, start);
    LinkTimeSaid(cfg, q, now, start, (p.kaLen, p.kaTerm));
    LinkTimeOnly(q, now);
    var s := if LinkTimeDue(p.out, (p.kaLen, p.kaTerm), now) then [LinkTimeSent(now)] else [];
    SaidMore(cfg, p, q, SendLinkTime(q, now), start, [], s);
    assert [] + s == s;
  }

  lemma {:induction false} ChangeSaid(cfg: Config, p: Peer, walk: Walk, now: int, start: int)
    requires AllOk(p.account.q.advs) && WalkOk(walk, now) && Fits(cfg, p, Of(p.out, start))
    ensures var r := DrainPeer(cfg, CheckAll(cfg, p, walk, now).0, now);
            && Said(cfg, p, r, start, [])
            && r == p.(account := r.account, out := r.out, quiesced := r.quiesced)
  {
    hide Of, AllOk, DrainPeer, CheckAll, Said;
    WalkNoted(cfg, p, walk, now);
    var b := CheckAll(cfg, p, walk, now).0;
    SaidNothing(cfg, p, b, start);
    SaidFits(cfg, p, b, start);
    DrainSaid(cfg, b, now, start);
    DrainKeepsShape(cfg, b, now);
    SaidMore(cfg, p, b, DrainPeer(cfg, b, now), start, [], []);
    var none: seq<Item> := [];
    assert none + none == none;
  }

  lemma {:induction false} RestartSaid(cfg: Config, p: Peer, now: int, start: int)
    requires Fits(cfg, p, Of(p.out, start))
    ensures var r := if p.quiesced then Forget(p, LinkRestarted(now)) else p;
            && Said(cfg, p, r, start, if cfg.quiesce && Shut(p.out) then [LinkRestarted(now)] else [])
            && r == p.(account := r.account, out := r.out, quiesced := r.quiesced, sentRoutes := r.sentRoutes)
  {
    hide Spoken, Introduced, Shut, Owing, LastMarkAt, LastInitAt, LastLinkTimeAt;
    OfSnoc(p.out, start, LinkRestarted(now));
    assert Spoken(p.out) + [] == Spoken(p.out);
  }

  lemma {:induction false} RehandshakeSaid(cfg: Config, p: Peer, now: int, start: int)
    requires Fits(cfg, p, Of(p.out, start))
    ensures var r := if p.Established() then p else SendKeepalive(SendInit(p.(sentRoutes := false), now), now);
            && Said(cfg, p, r, start, if p.Established() then [] else [InitSent(now), KeepaliveSent(now)])
            && r == p.(out := r.out, lastInit := r.lastInit, sentRoutes := r.sentRoutes)
  {
    hide Of;
    var n := Of(p.out, start);
    OfSnoc(p.out, start, InitSent(now));
    OfSnoc(p.out + [InitSent(now)], start, KeepaliveSent(now));
    assert n.spoken + [] == n.spoken;
    assert n.spoken + [InitSent(now)] + [KeepaliveSent(now)] == n.spoken + [InitSent(now), KeepaliveSent(now)];
  }

  lemma {:induction false} StartedInTune(cfg: Config, start: int, lastAdvert: int)
    ensures InTune(cfg, Started(start, lastAdvert), [], lastAdvert)
    ensures Spoken(Started(start, lastAdvert).out) == [InitSent(start), KeepaliveSent(start)]
  {
    hide Of;
    OfNothing(lastAdvert);
    OfSnoc([], lastAdvert, InitSent(start));
    OfSnoc([InitSent(start)], lastAdvert, KeepaliveSent(start));
    assert [] + [InitSent(start)] == [InitSent(start)];
    assert [InitSent(start)] + [KeepaliveSent(start)] == Started(start, lastAdvert).out;
    assert [InitSent(start)] + [KeepaliveSent(start)] == [InitSent(start), KeepaliveSent(start)];
    SpokenOf(Started(start, lastAdvert).out, lastAdvert);
  }

  lemma {:induction false} OfNothing(start: int)
    ensures Of([], start) == Notes([], false, false, false, 0, start, 0)
  {
  }

  lemma {:induction false} SpokenOf(out: seq<Item>, start: int)
    ensures Of(out, start).spoken == Spoken(out)
  {
  }

  lemma {:induction false} SessionInTune(cfg: Config, start: int, lastAdvert: int, es: seq<Event>)
    requires start > 0 && SessionRun(cfg, start, lastAdvert, es).Some?
    ensures InTune(cfg, SessionRun(cfg, start, lastAdvert, es).value.0, es, lastAdvert)
    decreases |es|
  {
    hide InTune, Peers.Step, CanHappen;
    if es == [] {
      StartedInTune(cfg, start, lastAdvert);
    } else {
      var n := |es| - 1;
      SessionInTune(cfg, start, lastAdvert, es[..n]);
      var s := SessionRun(cfg, start, lastAdvert, es[..n]).value;
      HappensNext(s.0, es[n], s.1);
      StepSays(cfg, s.0, es[..n], es[n], lastAdvert);
      assert es[..n] + [es[n]] == es;
    }
  }

  /** Over any session, what each event makes us say, besides learned records and the
      owed '3-', is determined by the events before it and by what has gone out. */
  lemma {:induction false} SessionSays(cfg: Config, start: int, lastAdvert: int, es: seq<Event>, e: Event)
    requires start > 0 && SessionRun(cfg, start, lastAdvert, es).Some?
    requires var s := SessionRun(cfg, start, lastAdvert, es).value; CanHappen(s.0, e, s.1)
    ensures var p := SessionRun(cfg, start, lastAdvert, es).value.0; var r := Peers.Step(cfg, p, e);
            && Spoken(r.out) == Spoken(p.out) + Says(cfg, es, p.out, lastAdvert, e)
            && Mirrors(cfg, r, lastAdvert) && (r.kaLen, r.kaTerm) == ShapeOf(es + [e])
            && (r.Pcf() <==> IsPcf(ShapeOf(es + [e])))
  {
    hide Of, Peers.Step, CanHappen, Says, ShapeOf, HeardOf, Mirrors;
    var s := SessionRun(cfg, start, lastAdvert, es).value;
    SessionInTune(cfg, start, lastAdvert, es);
    HappensNext(s.0, e, s.1);
    StepSays(cfg, s.0, es, e, lastAdvert);
    var r := Peers.Step(cfg, s.0, e);
    MirrorsIsFits(cfg, r, lastAdvert);
    SpokenOf(r.out, lastAdvert);
    SpokenOf(s.0.out, lastAdvert);
  }

  /** A session that has been heard of is introduced: an INIT or a '3+' does it at once, a
      keepalive once the session is established, and at the latest the timer's turn,
      if transit is on. */
  lemma {:induction false} HeardIsIntroduced(cfg: Config, start: int, lastAdvert: int, es: seq<Event>)
    requires start > 0 && SessionRun(cfg, start, lastAdvert, es).Some? && es != [] && HeardOf(es)
    requires var e := es[|es| - 1]; e.GotInit? || e.GotRequest? || e.GotKeepalive? || (e.Timer? && cfg.transit)
    ensures Introduced(SessionRun(cfg, start, lastAdvert, es).value.0.out)
  {
    hide Of, InTune, Introduced, HeardOf, CanHappen, Peers.Step;
    var n := |es| - 1;
    var s := SessionRun(cfg, start, lastAdvert, es[..n]).value;
    SessionInTune(cfg, start, lastAdvert, es);
    SessionInTune(cfg, start, lastAdvert, es[..n]);
    HappensNext(s.0, es[n], s.1);
    var r := Peers.Step(cfg, s.0, es[n]);
    assert es[..n] + [es[n]] == es;
    HeardNow(cfg, s.0, es[..n], es[n], lastAdvert);
    InTuneFits(cfg, r, es, lastAdvert);
  }

  lemma {:induction false} InTuneFits(cfg: Config, p: Peer, es: seq<Event>, start: int)
    requires InTune(cfg, p, es, start)
    ensures (p.sentRoutes <==> Introduced(p.out)) && (p.Established() <==> HeardOf(es))
    ensures p.lastLt == LastLinkTimeAt(p.out)
  {
    hide HeardOf, ShapeOf, Spoken, Introduced, Shut, Owing, LastMarkAt, LastInitAt, LastLinkTimeAt;
  }

  lemma {:induction false} HeardNow(cfg: Config, p: Peer, es: seq<Event>, e: Event, start: int)
    requires Feasible(p, e) && InTune(cfg, p, es, start) && HeardOf(es + [e])
    requires e.GotInit? || e.GotRequest? || e.GotKeepalive? || (e.Timer? && cfg.transit)
    ensures Peers.Step(cfg, p, e).sentRoutes
  {
    hide InTune, AllOk, WalkOk, DrainPeer, CheckAll, HeardOf, Neighbours, Introduce, SendLinkTime, Answer, Greeted;
    HeardMore(es, e);
    InTuneFits(cfg, p, es, start);
    match e {
      case GotInit(long, walk, now) =>
        var p2 := Greeted(p.(gotInit := true), AnswersInit(p, now), long, now);
        InitIsGreeted(cfg, p, long, walk, now);
        IntroducedThen(cfg, p2, walk, now);
      case GotKeepalive(len, term, up, echo, walk, now) =>
        KeepaliveIsKept(cfg, p, len, term, up, echo, walk, now);
        var p3 := Kept(p, len, term, up, echo, now);
        KeptEstablished(p, len, term, up, echo, now);
        IntroducedThen(cfg, p3, walk, now);
      case GotRequest(up, walk, now) =>
      case Timer(beat, refresh, walk, now) =>
        var p1 := Refreshed(cfg, p, beat, refresh, now);
        TimerIsRefreshed(cfg, p, beat, refresh, walk, now);
        RefreshedEstablished(cfg, p, beat, refresh, now);
        IntroducedThen(cfg, p1, walk, now);
        var p2 := if cfg.transit && !p1.sentRoutes && p1.Established() then Introduce(cfg, p1, walk, now) else p1;
        DrainKeepsShape(cfg, p2, now);
    }
  }

  lemma {:induction false} IntroducedThen(cfg: Config, p: Peer, walk: Walk, now: int)
    requires AllOk(p.account.q.advs) && WalkOk(walk, now)
    ensures Introduce(cfg, p, walk, now).sentRoutes
  {
    hide Of, AllOk, WalkOk;
    var eob := IntroduceNoted(cfg, p, walk, now, 0);
  }

  lemma {:induction false} KeptEstablished(p: Peer, len: nat, term: char, up: bool, echo: bool, now: int)
    ensures Kept(p, len, term, up, echo, now).Established() <==> p.Established() || up
  {
  }

  lemma {:induction false} RefreshedEstablished(cfg: Config, p: Peer, beat: bool, refresh: Walk, now: int)
    requires AllOk(p.account.q.advs) && WalkOk(refresh, now)
    ensures Refreshed(cfg, p, beat, refresh, now).Established() == p.Established()
  {
    hide Of, AllOk, WalkOk, SendLinkTime, Neighbours;
    var k := SendKeepalive(p, now);
    LinkTimeOnly(k, now);
    var p0 := if beat then SendLinkTime(k, now) else p;
    var other, eob := SeedNoted(cfg, SendOwn(p0.(lastAdvert := now), false, now), refresh, now, 0);
  }

  // ----- link times, and our own call

  predicate LinkTimesApart(said: seq<Item>)
  {
    forall i, j :: 0 <= i < j < |said| && said[i].LinkTimeSent? && said[j].LinkTimeSent? ==>
      said[j].at - said[i].at >= 20
  }

  predicate LinkTimesBy(said: seq<Item>, t: int)
  {
    forall i :: 0 <= i < |said| && said[i].LinkTimeSent? ==> 0 < said[i].at <= t
  }

  /** Link times go out twenty seconds apart or more, whatever the neighbour sends. */
  lemma {:induction false} LinkTimesSpaced(cfg: Config, start: int, lastAdvert: int, es: seq<Event>)
    requires start > 0 && SessionRun(cfg, start, lastAdvert, es).Some?
    ensures var s := SessionRun(cfg, start, lastAdvert, es).value;
            && LinkTimesApart(Spoken(s.0.out)) && LinkTimesBy(Spoken(s.0.out), LastLinkTimeAt(s.0.out))
            && LastLinkTimeAt(s.0.out) <= s.1 && s.1 >= start
    decreases |es|
  {
    hide Peers.Step, CanHappen, Says, Spoken, LastLinkTimeAt, Mirrors, ShapeOf, HeardOf;
    if es == [] {
      StartedInTune(cfg, start, lastAdvert);
      NoLinkTimeYet(start, lastAdvert);
    } else {
      var n := |es| - 1;
      LinkTimesSpaced(cfg, start, lastAdvert, es[..n]);
      var s := SessionRun(cfg, start, lastAdvert, es[..n]).value;
      SessionSays(cfg, start, lastAdvert, es[..n], es[n]);
      SessionInTune(cfg, start, lastAdvert, es[..n]);
      HappensNext(s.0, es[n], s.1);
      OneLinkTime(cfg, s.0, es[..n], es[n], lastAdvert);
      OneMoreLinkTime(Spoken(s.0.out), Says(cfg, es[..n], s.0.out, lastAdvert, es[n]), LastLinkTimeAt(s.0.out),
        es[n].now);
    }
  }

  lemma {:induction false} NoLinkTimeYet(start: int, lastAdvert: int)
    ensures LastLinkTimeAt(Started(start, lastAdvert).out) == 0
  {
    hide Of;
    OfNothing(0);
    OthersSnoc([], 0, InitSent(start));
    OthersSnoc([InitSent(start)], 0, KeepaliveSent(start));
    assert [] + [InitSent(start)] == [InitSent(start)];
    assert [InitSent(start)] + [KeepaliveSent(start)] == Started(start, lastAdvert).out;
  }

  /** What an event says holds one link time at most, at its own time, and only if twenty
      seconds have passed since the last; that is then the last one. */
  lemma {:induction false} OneLinkTime(cfg: Config, p: Peer, es: seq<Event>, e: Event, start: int)
    requires Feasible(p, e) && InTune(cfg, p, es, start)
    ensures var said := Says(cfg, es, p.out, start, e); var r := Peers.Step(cfg, p, e);
            var last, latest := LastLinkTimeAt(p.out), LastLinkTimeAt(r.out);
            && (forall i, j :: 0 <= i < j < |said| ==> !(said[i].LinkTimeSent? && said[j].LinkTimeSent?))
            && (forall i :: 0 <= i < |said| && said[i].LinkTimeSent? ==>
                  said[i].at == e.now == latest && (last == 0 || e.now - last >= 20))
            && (latest == last || latest == e.now)
  {
    hide InTune, Says, LastLinkTimeAt, Feasible, Peers.Step;
    SaysOneLinkTime(cfg, es, p.out, start, e);
    LinkTimeNoted(cfg, p, es, e, start);
  }

  lemma {:induction false} SaysOneLinkTime(cfg: Config, es: seq<Event>, out: seq<Item>, start: int, e: Event)
    ensures var said, last := Says(cfg, es, out, start, e), LastLinkTimeAt(out);
            && (forall i, j :: 0 <= i < j < |said| ==> !(said[i].LinkTimeSent? && said[j].LinkTimeSent?))
            && (forall i :: 0 <= i < |said| && said[i].LinkTimeSent? ==>
                  said[i].at == e.now && (last == 0 || e.now - last >= 20))
  {
    hide HeardOf, ShapeOf, Introduced, RefreshDue, LastInitAt, LastLinkTimeAt, Shut, GuardOver;
  }

  lemma {:induction false} LinkTimeNoted(cfg: Config, p: Peer, es: seq<Event>, e: Event, start: int)
    requires Feasible(p, e) && InTune(cfg, p, es, start)
    requires var said := Says(cfg, es, p.out, start, e);
             forall i :: 0 <= i < |said| && said[i].LinkTimeSent? ==> said[i].at == e.now
    ensures var said := Says(cfg, es, p.out, start, e);
            LastLinkTimeAt(Peers.Step(cfg, p, e).out) ==
            if exists i :: 0 <= i < |said| && said[i].LinkTimeSent? then e.now else LastLinkTimeAt(p.out)
  {
    hide Of, HeardOf, ShapeOf, AllOk, WalkOk, Peers.Step, Says, InTune, LastLinkTimeAt, Spoken;
    StepSays(cfg, p, es, e, start);
    var r, said := Peers.Step(cfg, p, e), Says(cfg, es, p.out, start, e);
    SpokenOf(p.out, start);
    SpokenOf(r.out, start);
    LinkTimeSpoken(p.out);
    LinkTimeSpoken(r.out);
    LastLinkTimeOf(Spoken(p.out), said, e.now);
  }

  lemma {:induction false} LinkTimeSpoken(out: seq<Item>)
    ensures LastLinkTimeAt(Spoken(out)) == LastLinkTimeAt(out)
  {
    hide LastLinkTimeAt, Spoken;
    if out == [] {
      OfNothing(0);
      NothingSpoken();
    } else {
      var n := |out| - 1;
      assert out == out[..n] + [out[n]];
      OthersSnoc(out[..n], 0, out[n]);
      LinkTimeSpoken(out[..n]);
      OthersSnoc(Spoken(out[..n]), 0, out[n]);
      assert Spoken(out[..n]) + [] == Spoken(out[..n]);
    }
  }

  lemma {:induction false} NothingSpoken()
    ensures Spoken([]) == []
  {
  }

  lemma {:induction false} LastLinkTimeOf(before: seq<Item>, said: seq<Item>, now: int)
    requires forall i :: 0 <= i < |said| && said[i].LinkTimeSent? ==> said[i].at == now
    ensures LastLinkTimeAt(before + said) ==
            if exists i :: 0 <= i < |said| && said[i].LinkTimeSent? then now else LastLinkTimeAt(before)
  {
    if said == [] {
      assert before + said == before;
    } else {
      var n := |said| - 1;
      LastLinkTimeOf(before, said[..n], now);
      assert before + said == (before + said[..n]) + [said[n]];
      OthersSnoc(before + said[..n], 0, said[n]);
    }
  }

  lemma {:induction false} OneMoreLinkTime(before: seq<Item>, said: seq<Item>, last: int, now: int)
    requires LinkTimesApart(before) && LinkTimesBy(before, last) && now > 0 && last <= now
    requires forall i, j :: 0 <= i < j < |said| ==> !(said[i].LinkTimeSent? && said[j].LinkTimeSent?)
    requires forall i :: 0 <= i < |said| && said[i].LinkTimeSent? ==>
               said[i].at == now && (last == 0 || now - last >= 20)
    ensures LinkTimesApart(before + said)
    ensures LinkTimesBy(before + said,
              if exists i :: 0 <= i < |said| && said[i].LinkTimeSent? then now else last)
  {
  }
}
