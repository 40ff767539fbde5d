/** Costs read straight off the tables: what the offers of `World` and the cheapest
  * costs of `DestTable` come to, entry by entry, and which link option holds back
  * what.
  */
module Offers {
  import opened Base
  import opened Text
  import opened World
  import opened DestTable

  /** Entry `k` is the first one session `si` has for the destination. */
  predicate Lists(w: World, si: int, k: int, key: Key)
    requires w.Valid()
  {
    && 0 <= si < MAX_SESSIONS && 0 <= k < |w.learned[si]|
    && w.learned[si][k].key == key && forall j :: 0 <= j < k ==> w.learned[si][j].key != key
  }

  /** An entry an active session can be reached through: a positive cost under 60000. */
  predicate Reachable(w: World, si: int, k: int, key: Key)
    requires w.Valid()
  {
    Lists(w, si, k, key) && w.sessions[si].active && 0 < w.learned[si][k].rtt < 60000
  }

  /** The session's own callsign falls under the destination. */
  predicate NamesPeer(w: World, si: int, key: Key)
    requires w.Valid()
  {
    && 0 <= si < MAX_SESSIONS && w.sessions[si].active && w.sessions[si].linked
    && key.call != "" && w.sessions[si].base != "" && SameText(w.sessions[si].base, key.call)
    && key.lo <= w.sessions[si].ssid && w.sessions[si].ssid <= key.hi
  }

  /** Entry `k` of the session is its neighbour's own, and not one behind it. */
  predicate Neighbours(w: World, si: int, k: int, key: Key)
    requires w.Valid() && 0 <= si < MAX_SESSIONS && 0 <= k < |w.learned[si]|
  {
    w.learned[si][k].direct || NamesPeer(w, si, key)
  }

  /** Option '-' holds back neighbours, NoBehind all the others. */
  predicate Withheld(w: World, si: int, k: int, key: Key)
    requires w.Valid() && 0 <= si < MAX_SESSIONS && 0 <= k < |w.learned[si]|
  {
    || (Neighbours(w, si, k, key) && NoNeighbour in w.opts[si])
    || (!Neighbours(w, si, k, key) && NoBehind in w.opts[si])
  }

  /** `peer` may hear of what session `si` offers: they differ, and share a port
      unless routes cross ports. */
  predicate MayHear(w: World, crossport: bool, peer: int, si: int)
    requires w.Valid() && 0 <= si < MAX_SESSIONS
  {
    si != peer && (crossport || (0 <= peer < MAX_SESSIONS ==> w.sessions[si].port == w.sessions[peer].port))
  }

  predicate Way(w: World, crossport: bool, peer: int, si: int, k: int, key: Key)
    requires w.Valid()
  {
    Reachable(w, si, k, key) && MayHear(w, crossport, peer, si) && !Withheld(w, si, k, key)
  }

  function Least(c: int): int { if c < 59999 then c else 59999 }

  /** The reported cost, the link to the neighbour, at least a tick, and 2000 for a
      penalised link; never infinite. */
  function WayCost(w: World, si: int, k: int): int
    requires w.Valid() && 0 <= si < MAX_SESSIONS && 0 <= k < |w.learned[si]|
  {
    var lt := w.sessions[si].linkTime;
    Least(w.learned[si][k].rtt + (if lt < 1 then 1 else lt) + (if Penalty in w.opts[si] then 2000 else 0))
  }

  /** The part of it that the penalty of the link does not account for. */
  function BareCost(w: World, si: int, k: int): int
    requires w.Valid() && 0 <= si < MAX_SESSIONS && 0 <= k < |w.learned[si]|
  {
    Least(w.learned[si][k].rtt + (if w.sessions[si].linkTime < 1 then 1 else w.sessions[si].linkTime))
  }

  lemma {:induction false} FirstIsIndex(ls: seq<Learned>, key: Key)
    ensures var i := IndexOf(ls, key, 0);
            && (i < |ls| ==> ls[i].key == key && forall j :: 0 <= j < i ==> ls[j].key != key)
            && (i == |ls| ==> forall j :: 0 <= j < |ls| ==> ls[j].key != key)
  {
    IndexOfIsFirst(ls, key, 0);
  }

  lemma {:induction false} ListsIsIndex(w: World, si: nat, k: int, key: Key)
    requires w.Valid() && si < MAX_SESSIONS
    ensures Lists(w, si, k, key) <==> k == IndexOf(w.learned[si], key, 0) < |w.learned[si]|
  {
    FirstIsIndex(w.learned[si], key);
  }

  lemma {:induction false} PeerNamed(w: World, si: int, key: Key)
    requires w.Valid()
    ensures IsSessionPeer(w, si, key) <==> NamesPeer(w, si, key)
  {
  }

  /** One session: it makes an offer exactly when it has an entry that is reachable and
      not withheld, and then at the cost of that way. */
  lemma {:induction false} OfferIsWay(w: World, si: nat, k: int, key: Key)
    requires w.Valid() && si < MAX_SESSIONS
    ensures OfferVia(w, si, key).Some? ==> Lists(w, si, IndexOf(w.learned[si], key, 0), key)
    ensures Lists(w, si, k, key) ==>
              var o := OfferVia(w, si, key);
              && (o.Some? <==> Reachable(w, si, k, key) && !Withheld(w, si, k, key))
              && (o.Some? ==> o.value.cost == WayCost(w, si, k) && o.value.direct == w.learned[si][k].direct)
              && (o.Some? ==> o.value.pen == WayCost(w, si, k) - BareCost(w, si, k))
  {
    hide SameText;
    ListsIsIndex(w, si, k, key);
    ListsIsIndex(w, si, IndexOf(w.learned[si], key, 0), key);
    PeerNamed(w, si, key);
  }

  /** flex_expected_rtt from the tables alone: a neighbour is never told of itself;
      otherwise the result is the least cost of all ways, it is the cost of a way of
      the source it names, no earlier source has one as cheap, and there is no source
      only if there is no way. */
  lemma {:induction false} ExpectedFromTables(w: World, crossport: bool, peer: int, key: Key)
    requires w.Valid()
    ensures var b := Expected(w, crossport, peer, key);
            if peer >= 0 && NamesPeer(w, peer, key) then b == Best(60000, -1, false, 0)
            else
              && (forall si, k :: Way(w, crossport, peer, si, k, key) ==> b.src >= 0 && b.cost <= WayCost(w, si, k))
              && (forall si, k :: Way(w, crossport, peer, si, k, key) && si < b.src ==> b.cost < WayCost(w, si, k))
              && (b.src < 0 ==> b == Best(60000, -1, false, 0))
              && (b.src >= 0 ==> exists k ::
                    && Way(w, crossport, peer, b.src, k, key) && b.cost == WayCost(w, b.src, k)
                    && b.direct == w.learned[b.src][k].direct && b.pen == WayCost(w, b.src, k) - BareCost(w, b.src, k))
  {
    hide OfferVia, BestOf, WayCost, BareCost, Reachable, Withheld, Lists;
    var b := Expected(w, crossport, peer, key);
    ExpectedIsMinimum(w, crossport, peer, key);
    PeerNamed(w, peer, key);
    forall si, k | Way(w, crossport, peer, si, k, key)
      ensures 0 <= si < MAX_SESSIONS && 0 <= k < |w.learned[si]|
      ensures Permitted(w, crossport, peer, si)
      ensures OfferVia(w, si, key).Some? && OfferVia(w, si, key).value.cost == WayCost(w, si, k)
    {
      ReachableIsListed(w, si, k, key);
      OfferIsWay(w, si, k, key);
    }
    if b.src >= 0 && !(peer >= 0 && NamesPeer(w, peer, key)) {
      var k := IndexOf(w.learned[b.src], key, 0);
      OfferIsWay(w, b.src, k, key);
      ReachableIsListed(w, b.src, k, key);
      assert Way(w, crossport, peer, b.src, k, key);
    }
  }

  lemma {:induction false} ReachableIsListed(w: World, si: int, k: int, key: Key)
    requires w.Valid()
    ensures Lists(w, si, k, key) || Reachable(w, si, k, key) ==>
              Lists(w, si, k, key) && 0 <= si < MAX_SESSIONS && 0 <= k < |w.learned[si]|
  {
  }

  // ----- what each link option holds back

  /** `v` is `w` with `opt` added to the links of some sessions, each of which lists the
      destination as a neighbour (`near`) or as one behind it, if at all. */
  ghost predicate Adds(w: World, v: World, opt: LinkOpt, key: Key, near: bool)
  {
    && w.Valid() && v.Valid() && v.sessions == w.sessions && v.learned == w.learned
    && forall si :: 0 <= si < MAX_SESSIONS ==>
         || v.opts[si] == w.opts[si]
         || (v.opts[si] == w.opts[si] + {opt} &&
             forall k :: Lists(w, si, k, key) ==> (Neighbours(w, si, k, key) <==> near))
  }

  lemma {:induction false} SameOffersSameBest(w: World, v: World, crossport: bool, peer: int, key: Key, n: nat)
    requires w.Valid() && v.Valid() && v.sessions == w.sessions && n <= MAX_SESSIONS
    requires forall si :: 0 <= si < MAX_SESSIONS ==> OfferVia(v, si, key) == OfferVia(w, si, key)
    ensures BestOf(v, crossport, peer, key, n) == BestOf(w, crossport, peer, key, n)
  {
    hide OfferVia;
    if n > 0 { SameOffersSameBest(w, v, crossport, peer, key, n - 1); }
  }

  lemma {:induction false} AddedOffers(w: World, v: World, opt: LinkOpt, key: Key, si: nat)
    requires si < MAX_SESSIONS
    requires (opt == NoBehind && Adds(w, v, opt, key, true)) || (opt == NoNeighbour && Adds(w, v, opt, key, false))
    ensures OfferVia(v, si, key) == OfferVia(w, si, key)
  {
    hide SameText;
    var k := IndexOf(w.learned[si], key, 0);
    ListsIsIndex(w, si, k, key);
    PeerNamed(w, si, key);
    PeerNamed(v, si, key);
  }

  /** NoBehind does not touch neighbours: added to any links that list a destination
      as their neighbour, it changes nothing in what anybody is told of it. */
  lemma {:induction false} NoBehindSparesNeighbours(w: World, v: World, crossport: bool, peer: int, key: Key)
    requires Adds(w, v, NoBehind, key, true)
    ensures Expected(v, crossport, peer, key) == Expected(w, crossport, peer, key)
  {
    hide OfferVia, BestOf, Lists;
    forall si | 0 <= si < MAX_SESSIONS ensures OfferVia(v, si, key) == OfferVia(w, si, key) {
      AddedOffers(w, v, NoBehind, key, si);
    }
    SameOffersSameBest(w, v, crossport, peer, key, MAX_SESSIONS);
  }

  /** And '-' touches nothing but neighbours. */
  lemma {:induction false} NoNeighbourSparesOthers(w: World, v: World, crossport: bool, peer: int, key: Key)
    requires Adds(w, v, NoNeighbour, key, false)
    ensures Expected(v, crossport, peer, key) == Expected(w, crossport, peer, key)
  {
    hide OfferVia, BestOf, Lists;
    forall si | 0 <= si < MAX_SESSIONS ensures OfferVia(v, si, key) == OfferVia(w, si, key) {
      AddedOffers(w, v, NoNeighbour, key, si);
    }
    SameOffersSameBest(w, v, crossport, peer, key, MAX_SESSIONS);
  }

  /** A destination that only links with '-' list, as their neighbours, is told to
      nobody; nor is one that only links with NoBehind list, as one behind them. */
  lemma {:induction false} HeldBack(w: World, crossport: bool, peer: int, key: Key)
    requires w.Valid()
    ensures (forall si, k :: Lists(w, si, k, key) ==> Neighbours(w, si, k, key) && NoNeighbour in w.opts[si]) ==>
              Expected(w, crossport, peer, key).src == -1
    ensures (forall si, k :: Lists(w, si, k, key) ==> !Neighbours(w, si, k, key) && NoBehind in w.opts[si]) ==>
              Expected(w, crossport, peer, key).src == -1
  {
    hide Lists, Neighbours, Expected;
    ExpectedFromTables(w, crossport, peer, key);
    forall si, k | Way(w, crossport, peer, si, k, key) ensures Lists(w, si, k, key) {
      ReachableIsListed(w, si, k, key);
    }
  }

  // ----- the cheapest cost of a destination table row

  /** What an entry costs from here as a next hop: reported cost, 2000 for a penalised
      link, and the link to the neighbour. */
  function HopCost(w: World, si: int, k: int): int
    requires w.Valid() && 0 <= si < MAX_SESSIONS && 0 <= k < |w.learned[si]|
  {
    Least(Least(w.learned[si][k].rtt + (if Penalty in w.opts[si] then 2000 else 0)) + w.sessions[si].linkTime)
  }

  lemma {:induction false} CostViaIsHop(w: World, si: nat, k: int, key: Key)
    requires w.Valid() && si < MAX_SESSIONS
    ensures Reachable(w, si, k, key) ==> CostVia(w, si, key) == HopCost(w, si, k) < INFINITY
    ensures CostVia(w, si, key) < INFINITY ==> Reachable(w, si, IndexOf(w.learned[si], key, 0), key)
  {
    ListsIsIndex(w, si, k, key);
    ListsIsIndex(w, si, IndexOf(w.learned[si], key, 0), key);
  }

  /** A row's cost seen from here: what is stored, and the link to its next hop while
      that session is up. */
  function CostOf(w: World, d: Dest): int
    requires w.Valid()
  {
    if d.rtt >= 60000 then 60000
    else if 0 <= d.via < MAX_SESSIONS && w.sessions[d.via].active then Least(d.rtt + w.sessions[d.via].linkTime)
    else d.rtt
  }

  /** The row holds the least cost of all entries that reach its destination, link
      options '-' and NoBehind notwithstanding, and is infinite exactly if there is none. */
  ghost predicate HoldsLeast(w: World, d: Dest)
    requires w.Valid()
  {
    && (forall si, k :: Reachable(w, si, k, d.key) ==> CostOf(w, d) <= HopCost(w, si, k))
    && (CostOf(w, d) < 60000 ==> exists si, k :: Reachable(w, si, k, d.key) && CostOf(w, d) == HopCost(w, si, k))
    && (d.rtt >= 60000 <==> forall si, k :: !Reachable(w, si, k, d.key))
  }

  lemma {:induction false} ReportedIsReachable(w: World, si: nat, key: Key)
    requires w.Valid() && si < MAX_SESSIONS
    ensures Report(w, si, key).Some? <==> Reachable(w, si, IndexOf(w.learned[si], key, 0), key)
    ensures forall k :: Reachable(w, si, k, key) ==> k == IndexOf(w.learned[si], key, 0)
  {
    var i := IndexOf(w.learned[si], key, 0);
    ListsIsIndex(w, si, i, key);
    forall k | Reachable(w, si, k, key) ensures k == i { ListsIsIndex(w, si, k, key); }
  }

  /** What `RowRecomputed` asks of a row is just that. */
  lemma {:induction false} RecomputedFromTables(w: World, d: Dest)
    requires w.Valid()
    ensures RowRecomputed(w, d) <==> HoldsLeast(w, d)
  {
    hide MinCost, CostVia, Reachable, HopCost, Report;
    MinCostIsMinimum(w, d.key, MAX_SESSIONS);
    forall si, k | Reachable(w, si, k, d.key)
      ensures 0 <= si < MAX_SESSIONS && 0 <= k < |w.learned[si]|
      ensures CostVia(w, si, d.key) == HopCost(w, si, k) < INFINITY && Report(w, si, d.key).Some?
    {
      ReachableIsListed(w, si, k, d.key);
      CostViaIsHop(w, si, k, d.key);
      ReportedIsReachable(w, si, d.key);
    }
    forall si | 0 <= si < MAX_SESSIONS && (Report(w, si, d.key).Some? || CostVia(w, si, d.key) < INFINITY)
      ensures exists k :: Reachable(w, si, k, d.key) && CostVia(w, si, d.key) == HopCost(w, si, k)
    {
      var k := IndexOf(w.learned[si], d.key, 0);
      ReportedIsReachable(w, si, d.key);
      CostViaIsHop(w, si, k, d.key);
      assert Reachable(w, si, k, d.key);
    }
    assert CostHere(w, d.rtt, d.via) == CostOf(w, d);
  }
}
