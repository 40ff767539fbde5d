/** One FlexNet neighbour's session: the handshake, the '3+' / '3-' exchange, the
  * 120 s refresh, and everything sent to the neighbour.
  */
module Peers {
  import opened World
  import opened Advertise
  import opened CompactCodec
  import opened Drain
  import opened AdvRuns

  const REINIT_GUARD := 60
  const ADVERT_INTERVAL := 120
  const LT_INTERVAL := 20
  const LT_INTERVAL_PCF := 320
  const KA_LEN := 241
  const KA_LEN_PCF := 201

  /** Our own record: base call and SSID range. */
  datatype Own = Own(call: string, lo: int, hi: int)

  /** The directives that matter here. */
  datatype Config = Config(transit: bool, quiesce: bool, own: Own)

  /** What has gone out, and the three events that reopen a closed exchange. `Mark`
      is a '3-'; an owed one answers a '3+' once the queue has drained. */
  datatype Item = InitSent(at: int)
                | KeepaliveSent(at: int)
                | LinkTimeSent(at: int)
                | OwnRecord(at: int)
                | Records(recs: seq<Rec>, at: int)
                | Mark(at: int, owed: bool, pcf: bool)
                | Asked(at: int)
                | InitAnswered(at: int)
                | LinkRestarted(at: int)

  datatype Peer = Peer(account: Account, sentRoutes: bool, gotInit: bool, inferred: bool, quiesced: bool,
                       kaLen: int, kaTerm: char, lastInit: int, lastAdvert: int, lastLt: int, out: seq<Item>)
  {
    /** flex_peer_is_pcf: PC/Flexnet until its keepalives say otherwise. */
    predicate Pcf() { kaTerm != ' ' }

    /** flex_is_established */
    predicate Established() { gotInit || inferred }
  }

  /** A session just started: our INIT and keepalive are out. The time of the last
      refresh is kept with the learned table, which may be an earlier session's. */
  function Started(now: int, lastAdvert: int): Peer
  {
    Peer(EMPTY_ACCOUNT, false, false, false, false, 0, '\0', now, lastAdvert, 0, [InitSent(now), KeepaliveSent(now)])
  }

  // ----- what is sent

  function Sends(frames: seq<seq<Rec>>, now: int): (r: seq<Item>)
    ensures |r| == |frames|
    ensures forall i :: 0 <= i < |frames| ==> r[i] == Records(frames[i], now)
  {
    seq(|frames|, i requires 0 <= i < |frames| => Records(frames[i], now))
  }

  /** flex_records_allowed */
  predicate Allowed(cfg: Config, p: Peer) { !cfg.quiesce || !p.quiesced }

  /** flex_record_is_ours */
  predicate IsOurs(own: Own, key: Key)
  {
    own.call != "" && key.call == own.call && key.lo <= own.hi && own.lo <= key.hi
  }

  predicate MayCheck(cfg: Config, p: Peer, key: Key)
  {
    Allowed(cfg, p) && cfg.transit && key.call != "" && !IsOurs(cfg.own, key)
  }

  /** flex_advertise_check for a destination whose case is `c`. */
  function CheckPeer(cfg: Config, p: Peer, key: Key, c: Case): (r: Peer)
    requires AllOk(p.account.q.advs) && Sound(c) && KeyOk(key)
    ensures AllOk(r.account.q.advs)
  {
    CheckedOk(p.account.q.advs, key, c);
    if MayCheck(cfg, p, key) then p.(account := AfterCheck(p.account, key, c)) else p
  }

  /** flex_advertise_drain */
  function DrainPeer(cfg: Config, p: Peer, now: int): (r: Peer)
    requires AllOk(p.account.q.advs)
    ensures AllOk(r.account.q.advs)
  {
    if !cfg.transit then p
    else
      var closed, pcf := !Allowed(cfg, p), p.Pcf();
      var d := DrainOnce(p.account.q, closed, pcf, now);
      DrainKeepsEntries(p.account.q, closed, pcf, now);
      p.(account := AfterDrain(p.account, closed, pcf, now),
         out := p.out + Sends(d.frames, now) + (if d.eob then [Mark(now, true, pcf)] else []),
         quiesced := p.quiesced || (d.eob && cfg.quiesce && pcf))
  }

  lemma {:induction false} PeerAfterDrain(cfg: Config, p: Peer, now: int, d: Drained)
    requires AllOk(p.account.q.advs) && cfg.transit && DrainOnce(p.account.q, !Allowed(cfg, p), p.Pcf(), now) == d
    ensures DrainPeer(cfg, p, now) ==
            p.(account := Account(d.q, p.account.log + Stamped(Flatten(d.frames), p.account.direct, now),
                                  p.account.direct),
               out := p.out + Sends(d.frames, now) + (if d.eob then [Mark(now, true, p.Pcf())] else []),
               quiesced := p.quiesced || (d.eob && cfg.quiesce && p.Pcf()))
  {
    hide AllOk, DrainOnce, Flatten, Stamped, Sends;
  }

  /** flex_send_own_routes */
  function SendOwn(p: Peer, deferMark: bool, now: int): Peer
  {
    p.(out := p.out + [OwnRecord(now)] + (if deferMark then [] else [Mark(now, false, p.Pcf())]))
  }

  /** Destinations walked, with what the decision rule sees of each. */
  type Walk = seq<(Key, Case)>

  predicate WalkOk(walk: Walk, now: int)
  {
    forall i :: 0 <= i < |walk| ==> KeyOk(walk[i].0) && Sound(walk[i].1) && walk[i].1.now == now
  }

  predicate IsQueued(p: Peer, key: Key) { RecordQueued(p.account.q.advs, key) }

  /** The loop of flex_advertise_walk_for_peer: the peer, and whether any entry was
      newly queued. */
  function CheckAll(cfg: Config, p: Peer, walk: Walk, now: int): (r: (Peer, bool))
    requires AllOk(p.account.q.advs) && WalkOk(walk, now)
    ensures AllOk(r.0.account.q.advs)
    decreases |walk|
  {
    if walk == [] then (p, false)
    else
      var n := |walk| - 1;
      var b := CheckAll(cfg, p, walk[..n], now);
      var q := CheckPeer(cfg, b.0, walk[n].0, walk[n].1);
      (q, b.1 || (IsQueued(q, walk[n].0) && !IsQueued(b.0, walk[n].0)))
  }

  /** flex_advertise_seed_peer */
  function Seed(cfg: Config, p: Peer, walk: Walk, now: int): (r: Peer)
    requires AllOk(p.account.q.advs) && WalkOk(walk, now)
    ensures AllOk(r.account.q.advs)
  {
    if !cfg.transit then p
    else
      var b := CheckAll(cfg, p, walk, now);
      (if b.1 then DrainPeer(cfg, b.0, now) else b.0).(lastAdvert := now)
  }

  /** flex_advertise_neighbours */
  function Neighbours(cfg: Config, p: Peer, walk: Walk, now: int): (r: Peer)
    requires AllOk(p.account.q.advs) && WalkOk(walk, now)
    ensures AllOk(r.account.q.advs)
  {
    if !cfg.transit then p
    else
      var b := CheckAll(cfg, p, walk, now).0;
      (if walk != [] then DrainPeer(cfg, b, now) else b).(lastAdvert := now)
  }

  /** Our own record, then the whole table: the initial advertisement. */
  function Introduce(cfg: Config, p: Peer, walk: Walk, now: int): (r: Peer)
    requires AllOk(p.account.q.advs) && WalkOk(walk, now)
    ensures AllOk(r.account.q.advs)
  {
    Seed(cfg, SendOwn(p, false, now).(sentRoutes := true), walk, now)
  }

  // ----- events

  /** `up`: the link counts as connected. A walk carries the decision rule's cases
      as they are at that moment. */
  datatype Event =
    | GotInit(long: bool, walk: Walk, now: int)
    | GotKeepalive(len: nat, term: char, up: bool, echo: bool, walk: Walk, now: int)
    | GotLinkTime(up: bool, now: int)
    | Heard(up: bool, now: int)
    | GotRequest(up: bool, walk: Walk, now: int)
    | Changed(walk: Walk, now: int)
    | Timer(beat: bool, refresh: Walk, walk: Walk, now: int)
    | Restarted(now: int)
    | Rehandshake(now: int)

  /** flex_note_peer_established */
  function NoteEstablished(p: Peer, up: bool): Peer
  {
    if !p.Established() && up then p.(inferred := true) else p
  }

  function SendKeepalive(p: Peer, now: int): Peer { p.(out := p.out + [KeepaliveSent(now)]) }

  /** flex_send_link_time: at most one in an interval that depends on the keepalives'
      shape. */
  function SendLinkTime(p: Peer, now: int): Peer
  {
    var interval := if p.kaTerm == '\r' then LT_INTERVAL_PCF else LT_INTERVAL;
    if p.lastLt != 0 && now - p.lastLt < interval then p else p.(out := p.out + [LinkTimeSent(now)], lastLt := now)
  }

  function SendInit(p: Peer, now: int): Peer { p.(out := p.out + [InitSent(now)], lastInit := now) }

  /** flex_reinit_answer */
  predicate AnswersInit(p: Peer, now: int)
  {
    p.Established() && (p.lastInit == 0 || now < p.lastInit || now - p.lastInit >= REINIT_GUARD)
  }

  /** The peer's table is forgotten: it starts from scratch. */
  function Forget(p: Peer, why: Item): (r: Peer)
    ensures AllOk(r.account.q.advs)
  {
    p.(account := EMPTY_ACCOUNT, sentRoutes := false, quiesced := false, out := p.out + [why])
  }

  /** Keepalive shape guessed from the INIT's length while no keepalive has come. */
  function GuessShape(p: Peer, long: bool, now: int): Peer
  {
    if p.kaLen != 0 then p
    else if long then SendKeepalive(p.(kaLen := KA_LEN_PCF, kaTerm := '\r'), now)
    else p.(kaLen := KA_LEN, kaTerm := ' ')
  }

  function OnInit(cfg: Config, p: Peer, long: bool, walk: Walk, now: int): (r: Peer)
    requires AllOk(p.account.q.advs) && WalkOk(walk, now)
    ensures AllOk(r.account.q.advs)
  {
    Respond(cfg, p.(gotInit := true), AnswersInit(p, now), long, walk, now)
  }

  /** What follows once the INIT is noted; `answers`: it is answered in kind. */
  function Respond(cfg: Config, p: Peer, answers: bool, long: bool, walk: Walk, now: int): (r: Peer)
    requires AllOk(p.account.q.advs) && WalkOk(walk, now)
    ensures AllOk(r.account.q.advs)
  {
    var p1 := GuessShape(p, long, now);
    var p2 := if answers then Forget(SendKeepalive(SendInit(p1, now), now), InitAnswered(now)) else p1;
    if !p2.sentRoutes then Introduce(cfg, p2, walk, now) else p2
  }

  function OnKeepalive(cfg: Config, p: Peer, len: nat, term: char, up: bool, echo: bool, walk: Walk,
                       now: int): (r: Peer)
    requires AllOk(p.account.q.advs) && WalkOk(walk, now)
    ensures AllOk(r.account.q.advs)
  {
    var p1 := NoteEstablished(p, up);
    var p2 := if 2 <= len <= KA_LEN then p1.(kaLen := len, kaTerm := term) else p1;
    var p3 := SendLinkTime(if echo then SendKeepalive(p2, now) else p2, now);
    if !p3.sentRoutes && p3.Established() then Introduce(cfg, p3, walk, now) else p3
  }

  /** A '3+': the exchange reopens, our own record goes out at once, the whole table
      is queued, and a '3-' is owed. */
  function OnRequest(cfg: Config, p: Peer, up: bool, walk: Walk, now: int): (r: Peer)
    requires AllOk(p.account.q.advs) && WalkOk(walk, now)
    ensures AllOk(r.account.q.advs)
  {
    var p1 := NoteEstablished(p, up);
    var p2 := SendOwn(p1.(quiesced := false, out := p1.out + [Asked(now)]), cfg.transit, now);
    var p3 := if cfg.transit then Answer(cfg, p2, walk, now) else p2;
    p3.(sentRoutes := true)
  }

  function Answer(cfg: Config, p: Peer, walk: Walk, now: int): (r: Peer)
    requires AllOk(p.account.q.advs) && WalkOk(walk, now)
    ensures AllOk(r.account.q.advs)
  {
    var b := CheckAll(cfg, p, walk, now).0;
    DrainPeer(cfg, b.(account := After(b.account, Owe)), now)
  }

  /** The part of the timer that concerns one session: a keepalive and a link time
      (`beat`: one is due), the 120 s refresh, a table not sent yet, the queue. */
  function OnTimer(cfg: Config, p: Peer, beat: bool, refresh: Walk, walk: Walk, now: int): (r: Peer)
    requires AllOk(p.account.q.advs) && WalkOk(refresh, now) && WalkOk(walk, now)
    ensures AllOk(r.account.q.advs)
  {
    var p0 := if beat then SendLinkTime(SendKeepalive(p, now), now) else p;
    var due := cfg.transit && p0.sentRoutes && Allowed(cfg, p0) && !p0.account.q.eobPending &&
      now - p0.lastAdvert >= ADVERT_INTERVAL;
    var p1 := if due then Neighbours(cfg, SendOwn(p0.(lastAdvert := now), false, now), refresh, now) else p0;
    var p2 := if cfg.transit && !p1.sentRoutes && p1.Established() then Introduce(cfg, p1, walk, now) else p1;
    DrainPeer(cfg, p2, now)
  }

  predicate Feasible(p: Peer, e: Event)
  {
    && AllOk(p.account.q.advs)
    && match e
       case GotInit(_, walk, now) => WalkOk(walk, now)
       case GotKeepalive(_, _, _, _, walk, now) => WalkOk(walk, now)
       case GotRequest(_, walk, now) => WalkOk(walk, now)
       case Changed(walk, now) => WalkOk(walk, now)
       case Timer(_, refresh, walk, now) => WalkOk(refresh, now) && WalkOk(walk, now)
       case _ => true
  }

  function Step(cfg: Config, p: Peer, e: Event): (r: Peer)
    requires Feasible(p, e)
    ensures AllOk(r.account.q.advs)
  {
    match e
    case GotInit(long, walk, now) => OnInit(cfg, p, long, walk, now)
    case GotKeepalive(len, term, up, echo, walk, now) => OnKeepalive(cfg, p, len, term, up, echo, walk, now)
    case GotLinkTime(up, now) => SendLinkTime(NoteEstablished(p, up), now)
    case Heard(up, _) => NoteEstablished(p, up)
    case GotRequest(up, walk, now) => OnRequest(cfg, p, up, walk, now)
    case Changed(walk, now) => DrainPeer(cfg, CheckAll(cfg, p, walk, now).0, now)
    case Timer(beat, refresh, walk, now) => OnTimer(cfg, p, beat, refresh, walk, now)
    case Restarted(now) => if p.quiesced then Forget(p, LinkRestarted(now)) else p
    case Rehandshake(now) =>
      if p.Established() then p
      else SendKeepalive(SendInit(p.(sentRoutes := false), now), now)
  }
}
