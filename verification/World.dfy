/** What a node has heard: its sessions, what each neighbour offers, and what a
  * route costs from here.
  */
module World {
  import opened Base
  import opened Text

  const MAX_SESSIONS := 8
  const LINK_PENALTY := 2000

  /** Destinations are keyed by base call and SSID range. */
  datatype Key = Key(call: string, lo: int, hi: int)

  /** Per-link routing options, one per bit of the option word. */
  datatype LinkOpt = NoNeighbour | NoBehind | OwnOnly | Penalty | Hidden

  /** `base` and `ssid` are the peer's callsign, split. */
  datatype Session = Session(active: bool, linked: bool, base: string, ssid: int, port: int, linkTime: int)

  datatype Learned = Learned(key: Key, rtt: int, direct: bool)

  datatype World = World(sessions: seq<Session>, learned: seq<seq<Learned>>, opts: seq<set<LinkOpt>>) {
    predicate Valid() { |sessions| == |learned| == |opts| == MAX_SESSIONS }
  }

  // ----- costs

  function OptsCost(opts: set<LinkOpt>, rtt: int): int
  {
    if Penalty !in opts || rtt <= 0 || rtt >= INFINITY then rtt
    else if rtt >= INFINITY - LINK_PENALTY then INFINITY - 1
    else rtt + LINK_PENALTY
  }

  predicate SourceAllows(opts: set<LinkOpt>, isNeighbour: bool)
  {
    if isNeighbour then NoNeighbour !in opts else NoBehind !in opts
  }

  function Capped(c: int): int { if c < INFINITY then c else INFINITY - 1 }

  // ----- learned tables

  /** Index of the first entry for `key` from `from` on, or the length. */
  function IndexOf(ls: seq<Learned>, key: Key, from: nat): (i: nat)
    requires from <= |ls|
    ensures from <= i <= |ls|
    ensures i < |ls| ==> ls[i].key == key
    decreases |ls| - from
  {
    if from == |ls| || ls[from].key == key then from else IndexOf(ls, key, from + 1)
  }

  lemma {:induction false} IndexOfIsFirst(ls: seq<Learned>, key: Key, from: nat)
    requires from <= |ls|
    ensures forall k :: from <= k < IndexOf(ls, key, from) ==> ls[k].key != key
    decreases |ls| - from
  {
    if from < |ls| && ls[from].key != key { IndexOfIsFirst(ls, key, from + 1); }
  }

  predicate Knows(ls: seq<Learned>, key: Key) { IndexOf(ls, key, 0) < |ls| }

  /** What session `si` reports for `key`: a finite, positive cost, or nothing. */
  function Report(w: World, si: nat, key: Key): Option<Learned>
    requires w.Valid() && si < MAX_SESSIONS
  {
    var i := IndexOf(w.learned[si], key, 0);
    if !w.sessions[si].active || i == |w.learned[si]| then None
    else if w.learned[si][i].rtt <= 0 || w.learned[si][i].rtt >= INFINITY then None
    else Some(w.learned[si][i])
  }

  /** flex_dest_is_session_peer */
  predicate IsSessionPeer(w: World, si: int, key: Key)
    requires w.Valid()
  {
    && 0 <= si < MAX_SESSIONS && key.call != ""
    && var s := w.sessions[si];
       s.active && s.linked && s.base != "" && SameText(s.base, key.call) && key.lo <= s.ssid <= key.hi
  }

  predicate IsOurPeer(w: World, key: Key)
    requires w.Valid()
  {
    exists si :: 0 <= si < MAX_SESSIONS && IsSessionPeer(w, si, key)
  }

  // ----- what we may tell a peer: flex_expected_rtt

  /** Cost offered through session `si`, its distance from the unpenalised cost,
      and whether it is that neighbour's own entry. */
  datatype Offer = Offer(cost: int, direct: bool, pen: int)

  function OfferVia(w: World, si: nat, key: Key): Option<Offer>
    requires w.Valid() && si < MAX_SESSIONS
  {
    match Report(w, si, key)
    case None => None
    case Some(r) =>
      if !SourceAllows(w.opts[si], r.direct || IsSessionPeer(w, si, key)) then None
      else
        var link := if w.sessions[si].linkTime < 1 then 1 else w.sessions[si].linkTime;
        var raw := Capped(r.rtt + link);
        var cost := OptsCost(w.opts[si], raw);
        Some(Offer(cost, r.direct, cost - raw))
  }

  /** May session `si` be a source for what we tell `peer` (-1: anybody)? */
  predicate Permitted(w: World, crossport: bool, peer: int, si: nat)
    requires w.Valid() && si < MAX_SESSIONS
  {
    && si != peer
    && (crossport || !(0 <= peer < MAX_SESSIONS) || w.sessions[si].port == w.sessions[peer].port)
  }

  datatype Best = Best(cost: int, src: int, direct: bool, pen: int) {
    function AsOffer(): Offer { Offer(cost, direct, pen) }
  }

  const NO_SOURCE := Best(INFINITY, -1, false, 0)

  /** The cheapest permitted offer among the first `n` sessions. */
  function BestOf(w: World, crossport: bool, peer: int, key: Key, n: nat): (b: Best)
    requires w.Valid() && n <= MAX_SESSIONS
    ensures -1 <= b.src < n && (b.src == -1 <==> b == NO_SOURCE)
    ensures b.src >= 0 ==> 1 <= b.cost < INFINITY && 0 <= b.pen < b.cost
  {
    if n == 0 then NO_SOURCE
    else
      var b := BestOf(w, crossport, peer, key, n - 1);
      var o := OfferVia(w, n - 1, key);
      if o.Some? && Permitted(w, crossport, peer, n - 1) && o.value.cost < b.cost
      then Best(o.value.cost, n - 1, o.value.direct, o.value.pen) else b
  }

  function Expected(w: World, crossport: bool, peer: int, key: Key): (b: Best)
    requires w.Valid()
    ensures b.src == -1 <==> b == NO_SOURCE
    ensures b.src >= 0 ==> 1 <= b.cost < INFINITY && 0 <= b.pen < b.cost
  {
    if peer >= 0 && IsSessionPeer(w, peer, key) then NO_SOURCE else BestOf(w, crossport, peer, key, MAX_SESSIONS)
  }

  lemma {:induction false} BestOfIsMinimum(w: World, crossport: bool, peer: int, key: Key, n: nat)
    requires w.Valid() && n <= MAX_SESSIONS
    ensures var b := BestOf(w, crossport, peer, key, n);
            && (forall si :: 0 <= si < n && Permitted(w, crossport, peer, si) && OfferVia(w, si, key).Some? ==>
                  b.cost <= OfferVia(w, si, key).value.cost)
            && (b.src >= 0 ==>
                 Permitted(w, crossport, peer, b.src) && OfferVia(w, b.src, key) == Some(b.AsOffer()))
            && (forall si :: 0 <= si < b.src && Permitted(w, crossport, peer, si) && OfferVia(w, si, key).Some? ==>
                  b.cost < OfferVia(w, si, key).value.cost)
  {
    if n > 0 { BestOfIsMinimum(w, crossport, peer, key, n - 1); }
  }

  /** flex_expected_rtt returns exactly the minimum over the permitted sources: it
      is a lower bound of every permitted offer, one of them attains it, the first
      of those is the source, and there is no source only if nobody offers. For a
      peer's own call it is infinite. */
  lemma {:induction false} ExpectedIsMinimum(w: World, crossport: bool, peer: int, key: Key)
    requires w.Valid()
    ensures var b := Expected(w, crossport, peer, key);
            if peer >= 0 && IsSessionPeer(w, peer, key) then b == NO_SOURCE
            else
              && (forall si ::
                    0 <= si < MAX_SESSIONS && Permitted(w, crossport, peer, si) && OfferVia(w, si, key).Some? ==>
                      b.src >= 0 && b.cost <= OfferVia(w, si, key).value.cost)
              && b.src < MAX_SESSIONS
              && (b.src >= 0 ==>
                   Permitted(w, crossport, peer, b.src) && OfferVia(w, b.src, key) == Some(b.AsOffer()))
              && (forall si :: 0 <= si < b.src && Permitted(w, crossport, peer, si) && OfferVia(w, si, key).Some? ==>
                    b.cost < OfferVia(w, si, key).value.cost)
  {
    BestOfIsMinimum(w, crossport, peer, key, MAX_SESSIONS);
    forall si | 0 <= si < MAX_SESSIONS && OfferVia(w, si, key).Some?
      ensures OfferVia(w, si, key).value.cost < INFINITY
    {
    }
  }

  /** Split horizon: what a peer is told does not depend on what it taught us. */
  lemma {:induction false} BestIgnoresPeersTable(w: World, crossport: bool, peer: nat, key: Key, table: seq<Learned>,
                                                 n: nat)
    requires w.Valid() && peer < MAX_SESSIONS && n <= MAX_SESSIONS
    ensures BestOf(w.(learned := w.learned[peer := table]), crossport, peer, key, n) ==
            BestOf(w, crossport, peer, key, n)
  {
    hide OfferVia;
    if n > 0 {
      BestIgnoresPeersTable(w, crossport, peer, key, table, n - 1);
      if n - 1 != peer {
        SameReport(w, w.(learned := w.learned[peer := table]), n - 1, key);
      }
    }
  }

  lemma {:induction false} SameReport(w: World, v: World, si: nat, key: Key)
    requires w.Valid() && v.Valid() && si < MAX_SESSIONS
    requires w.learned[si] == v.learned[si] && w.sessions[si] == v.sessions[si] && w.opts[si] == v.opts[si]
    ensures OfferVia(w, si, key) == OfferVia(v, si, key) && Report(w, si, key) == Report(v, si, key)
  {
  }

  lemma {:induction false} ExpectedIgnoresPeersTable(w: World, crossport: bool, peer: nat, key: Key,
                                                     table: seq<Learned>)
    requires w.Valid() && peer < MAX_SESSIONS
    ensures Expected(w.(learned := w.learned[peer := table]), crossport, peer, key) == Expected(w, crossport, peer, key)
  {
    BestIgnoresPeersTable(w, crossport, peer, key, table, MAX_SESSIONS);
  }

  /** `v` is `w` with options added to any links. */
  predicate MoreOptions(w: World, v: World)
  {
    && w.Valid() && v.Valid() && v.sessions == w.sessions && v.learned == w.learned
    && forall si :: 0 <= si < MAX_SESSIONS ==> w.opts[si] <= v.opts[si]
  }

  lemma {:induction false} OfferNarrows(w: World, v: World, si: nat, key: Key)
    requires MoreOptions(w, v) && si < MAX_SESSIONS
    ensures OfferVia(v, si, key).Some? ==>
            OfferVia(w, si, key).Some? && OfferVia(w, si, key).value.cost <= OfferVia(v, si, key).value.cost
  {
    assert w.opts[si] <= v.opts[si];
    assert NoNeighbour !in v.opts[si] ==> NoNeighbour !in w.opts[si];
    assert NoBehind !in v.opts[si] ==> NoBehind !in w.opts[si];
    assert Penalty !in v.opts[si] ==> Penalty !in w.opts[si];
  }

  lemma {:induction false} BestNarrows(w: World, v: World, crossport: bool, peer: int, key: Key, n: nat)
    requires MoreOptions(w, v) && n <= MAX_SESSIONS
    ensures BestOf(w, crossport, peer, key, n).cost <= BestOf(v, crossport, peer, key, n).cost
    ensures BestOf(w, crossport, peer, key, n).src == -1 ==> BestOf(v, crossport, peer, key, n).src == -1
  {
    if n > 0 {
      BestNarrows(w, v, crossport, peer, key, n - 1);
      OfferNarrows(w, v, n - 1, key);
    }
  }

  /** Options narrow: adding options to any links never lowers what a peer is told
      and never makes an unreachable destination reachable. */
  lemma {:induction false} OptionsOnlyNarrow(w: World, v: World, crossport: bool, peer: int, key: Key)
    requires MoreOptions(w, v)
    ensures Expected(w, crossport, peer, key).cost <= Expected(v, crossport, peer, key).cost
    ensures Expected(w, crossport, peer, key).src == -1 ==> Expected(v, crossport, peer, key).src == -1
  {
    BestNarrows(w, v, crossport, peer, key, MAX_SESSIONS);
  }
}
