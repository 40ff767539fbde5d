/** The destination table: one row per destination with its cheapest next hop,
  * kept up to date record by record.
  */
module DestTable {
  import opened Base
  import opened Text
  import opened World

  const MAX_DESTS := 2000
  const MAX_LEARNED := 256

  /** `rtt` is the cost reported by the next hop (with its link penalty), `via` the
      session it came from, -1 for none. */
  datatype Dest = Dest(key: Key, rtt: int, isInf: bool, port: int, via: int)

  /** A record from a peer; a withdrawal carries a cost of infinity or more. */
  datatype Record = Record(key: Key, rtt: int) {
    predicate Withdrawal() { rtt >= INFINITY }
  }

  predicate SameKey(a: Key, b: Key) { SameText(a.call, b.call) && a.lo == b.lo && a.hi == b.hi }

  /** flex_find_dest; the length if there is no row. */
  function FindDest(ds: seq<Dest>, key: Key, from: nat): (i: nat)
    requires from <= |ds|
    ensures from <= i <= |ds|
    ensures i < |ds| ==> SameKey(ds[i].key, key)
    decreases |ds| - from
  {
    if from == |ds| || SameKey(ds[from].key, key) then from else FindDest(ds, key, from + 1)
  }

  lemma {:induction false} FindDestIsFirst(ds: seq<Dest>, key: Key, from: nat)
    requires from <= |ds|
    ensures forall k :: from <= k < FindDest(ds, key, from) ==> !SameKey(ds[k].key, key)
    decreases |ds| - from
  {
    if from < |ds| && !SameKey(ds[from].key, key) { FindDestIsFirst(ds, key, from + 1); }
  }

  /** flex_dest_cost_here */
  function CostHere(w: World, rtt: int, si: int): int
    requires w.Valid()
  {
    if rtt >= INFINITY then INFINITY
    else if !(0 <= si < MAX_SESSIONS) || !w.sessions[si].active then rtt
    else Capped(rtt + w.sessions[si].linkTime)
  }

  /** What session `si` reports for `key`, its link penalty added; infinity if
      nothing. */
  function OfferedRtt(w: World, si: nat, key: Key): (c: int)
    requires w.Valid() && si < MAX_SESSIONS
    ensures c >= INFINITY <==> Report(w, si, key).None?
  {
    match Report(w, si, key)
    case None => INFINITY
    case Some(r) => OptsCost(w.opts[si], r.rtt)
  }

  /** Cost from here of what session `si` offers for `key`; infinity if nothing. */
  function CostVia(w: World, si: nat, key: Key): (c: int)
    requires w.Valid() && si < MAX_SESSIONS
    ensures c <= INFINITY
    ensures c == INFINITY <==> Report(w, si, key).None?
  {
    CostHere(w, OfferedRtt(w, si, key), si)
  }

  // ----- re-election

  /** The scan of flex_dest_reelect over the first `n` sessions: best source and
      its cost from here. */
  function BestSource(w: World, key: Key, incumbent: int, n: nat): (b: (int, int))
    requires w.Valid() && n <= MAX_SESSIONS
    ensures -1 <= b.0 < n && (b.0 == -1 ==> b.1 == INFINITY)
    ensures b.0 >= 0 ==> b.1 == CostVia(w, b.0, key) < INFINITY
  {
    if n == 0 then (-1, INFINITY)
    else
      var b := BestSource(w, key, incumbent, n - 1);
      var c := CostVia(w, n - 1, key);
      if c < INFINITY && (c < b.1 || (c == b.1 && n - 1 == incumbent)) then (n - 1, c) else b
  }

  function Reelected(w: World, transit: bool, d: Dest): Dest
    requires w.Valid()
  {
    var b := if transit then BestSource(w, d.key, d.via, MAX_SESSIONS) else (-1, INFINITY);
    if b.0 < 0 then d.(rtt := INFINITY, isInf := true, via := -1)
    else d.(rtt := OptsCost(w.opts[b.0], Report(w, b.0, d.key).value.rtt), isInf := false, via := b.0,
            port := w.sessions[b.0].port)
  }

  // ----- merging a record

  /** flex_learned_add on one peer's table. */
  function LearnedWith(ls: seq<Learned>, r: Record): seq<Learned>
  {
    var i := IndexOf(ls, r.key, 0);
    if r.key.call == "" then ls
    else if i < |ls| then ls[i := ls[i].(rtt := r.rtt)]
    else if |ls| >= MAX_LEARNED then ls
    else ls + [Learned(r.key, r.rtt, false)]
  }

  function Taught(w: World, s: nat, r: Record): (v: World)
    requires w.Valid() && s < MAX_SESSIONS
    ensures v.Valid()
  {
    w.(learned := w.learned[s := LearnedWith(w.learned[s], r)])
  }

  datatype Tables = Tables(w: World, dests: seq<Dest>)

  /** flex_dtable_merge for a record from session `s`; `ours` means the record names
      one of our own local calls. The number is the C function's result. */
  function Merge(t: Tables, transit: bool, ours: bool, r: Record, s: nat): (m: (Tables, int))
    requires t.w.Valid() && s < MAX_SESSIONS
    ensures m.0.w.Valid()
  {
    if ours || r.rtt == 0 then (t, 0)
    else
      var eff := OptsCost(t.w.opts[s], r.rtt);
      var row := Dest(r.key, eff, r.Withdrawal(), t.w.sessions[s].port, s);
      var w1 := if transit then Taught(t.w, s, r) else t.w;
      var i := FindDest(t.dests, r.key, 0);
      if i < |t.dests| then
        var d := t.dests[i];
        var current := d.via == s;
        var d1 := if current || CostHere(t.w, eff, s) < CostHere(t.w, d.rtt, d.via) then row.(key := d.key) else d;
        var d2 := if transit && current then Reelected(w1, true, d1) else d1;
        (Tables(w1, t.dests[i := d2]), 2)
      else if |t.dests| < MAX_DESTS then (Tables(w1, t.dests + [row]), 1)
      else (t, 0)
  }

  // ----- a neighbour's own entry

  /** First entry the neighbour's last session left for itself, or the length. */
  function OwnEntry(ls: seq<Learned>, call: string, ssid: int, from: nat): (i: nat)
    requires from <= |ls|
    ensures from <= i <= |ls|
    decreases |ls| - from
  {
    if from == |ls| then from
    else if ls[from].direct && ls[from].key.lo == ssid && ls[from].key.hi >= ssid && ls[from].key.call == call then from
    else OwnEntry(ls, call, ssid, from + 1)
  }

  /** The destination a neighbour stands for: from its link's SSID up to the highest one
      its INIT declares, or to what its last session left. */
  function NeighbourKey(w: World, s: nat, gotInit: bool, maxSsid: int): Key
    requires w.Valid() && s < MAX_SESSIONS
  {
    var x := w.sessions[s];
    var i := OwnEntry(w.learned[s], x.base, x.ssid, 0);
    Key(x.base, x.ssid,
        if gotInit then (if maxSsid > x.ssid then maxSsid else x.ssid)
        else if i < |w.learned[s]| then w.learned[s][i].key.hi else x.ssid)
  }

  /** The entry for `key` marked as a direct neighbour's. */
  function Flagged(ls: seq<Learned>, key: Key): (r: seq<Learned>)
    ensures |r| == |ls|
  {
    var i := IndexOf(ls, key, 0);
    if i < |ls| then ls[i := ls[i].(direct := true)] else ls
  }

  function WithFlag(t: Tables, s: nat, key: Key): (u: Tables)
    requires t.w.Valid() && s < MAX_SESSIONS
    ensures u.w.Valid()
  {
    t.(w := t.w.(learned := t.w.learned[s := Flagged(t.w.learned[s], key)]))
  }

  /** flex_add_neighbour_entry: merged at cost 1, then flagged. */
  function Entered(t: Tables, transit: bool, ours: bool, s: nat, key: Key): Tables
    requires t.w.Valid() && s < MAX_SESSIONS
  {
    var u := Merge(t, transit, ours, Record(key, 1), s).0;
    if transit then WithFlag(u, s, key) else u
  }

  /** flex_dest_reelect_via on every row. */
  function ReelectedVia(w: World, transit: bool, ds: seq<Dest>, si: int): (r: seq<Dest>)
    requires w.Valid()
    ensures |r| == |ds|
    ensures forall i :: 0 <= i < |ds| ==>
            r[i] == if NeedsReelection(ds[i], si) then Reelected(w, transit, ds[i]) else ds[i]
  {
    seq(|ds|, i requires 0 <= i < |ds| => if NeedsReelection(ds[i], si) then Reelected(w, transit, ds[i]) else ds[i])
  }

  predicate NeedsReelection(d: Dest, si: int) { d.via == si || (d.via < 0 && d.rtt < INFINITY) }

  function Closed(w: World, s: nat): (v: World)
    requires w.Valid() && s < MAX_SESSIONS
    ensures v.Valid()
  {
    w.(sessions := w.sessions[s := w.sessions[s].(active := false, linked := false)])
  }

  /** The route part of FlexNet_CloseSession. */
  function Close(t: Tables, transit: bool, s: nat): Tables
    requires t.w.Valid() && s < MAX_SESSIONS
  {
    var w := Closed(t.w, s);
    Tables(w, ReelectedVia(w, transit, t.dests, s))
  }

  /** The learned tables once slot `s` starts with the table of slot `from`, its own
      one included, or with none. */
  function Inherited(ls: seq<seq<Learned>>, s: nat, from: Option<nat>): (r: seq<seq<Learned>>)
    requires |ls| == MAX_SESSIONS && s < MAX_SESSIONS && (from.Some? ==> from.value < MAX_SESSIONS)
    ensures |r| == MAX_SESSIONS
  {
    match from
    case None => ls[s := []]
    case Some(a) => if a == s then ls else ls[s := ls[a]][a := []]
  }

  /** A new session in a free slot. A neighbour that comes back in time takes over the
      table of its last session, which nobody uses; no row is chosen again. */
  function Open(t: Tables, s: nat, session: Session, opts: set<LinkOpt>, from: Option<nat>): (u: Tables)
    requires t.w.Valid() && s < MAX_SESSIONS && (from.Some? ==> from.value < MAX_SESSIONS)
    ensures u.w.Valid()
  {
    t.(w := World(t.w.sessions[s := session], Inherited(t.w.learned, s, from), t.w.opts[s := opts]))
  }

  // ----- what the table promises

  /** Recomputed from scratch: the cheapest offer over all active sessions. */
  function MinCost(w: World, key: Key, n: nat): (c: int)
    requires w.Valid() && n <= MAX_SESSIONS
    ensures c <= INFINITY
  {
    if n == 0 then INFINITY else Min(MinCost(w, key, n - 1), CostVia(w, n - 1, key))
  }

  lemma {:induction false} MinCostIsMinimum(w: World, key: Key, n: nat)
    requires w.Valid() && n <= MAX_SESSIONS
    ensures forall si :: 0 <= si < n ==> MinCost(w, key, n) <= CostVia(w, si, key)
    ensures MinCost(w, key, n) == INFINITY || exists si :: 0 <= si < n && CostVia(w, si, key) == MinCost(w, key, n)
  {
    if n > 0 { MinCostIsMinimum(w, key, n - 1); }
  }

  function Cheapest(w: World, key: Key): int
    requires w.Valid()
  {
    MinCost(w, key, MAX_SESSIONS)
  }

  /** The row's cost from here is the cheapest offer, and a finite row holds what its
      next hop offers. */
  predicate RowMinimal(w: World, d: Dest)
    requires w.Valid()
  {
    && CostHere(w, d.rtt, d.via) == Cheapest(w, d.key)
    && (d.rtt < INFINITY ==> 0 <= d.via < MAX_SESSIONS && d.rtt == OfferedRtt(w, d.via, d.key))
    && d.isInf == (d.rtt >= INFINITY)
  }

  predicate AllMinimal(t: Tables)
  {
    t.w.Valid() && forall i :: 0 <= i < |t.dests| ==> RowMinimal(t.w, t.dests[i])
  }

  /** Recomputed from scratch: the row's cost from here is the minimum over all active
      sessions' offers, and it is infinite exactly when nobody offers its destination. */
  predicate RowRecomputed(w: World, d: Dest)
    requires w.Valid()
  {
    && CostHere(w, d.rtt, d.via) == Cheapest(w, d.key)
    && (d.rtt >= INFINITY <==> forall si :: 0 <= si < MAX_SESSIONS ==> Report(w, si, d.key).None?)
  }

  predicate Recomputed(t: Tables)
  {
    t.w.Valid() && forall i :: 0 <= i < |t.dests| ==> RowRecomputed(t.w, t.dests[i])
  }

  predicate HasRow(ds: seq<Dest>, key: Key) { exists i :: 0 <= i < |ds| && SameKey(ds[i].key, key) }

  /** Whatever a session has taught, lost sessions included, finds a row. */
  predicate Covered(t: Tables)
    requires t.w.Valid()
  {
    forall s, k :: 0 <= s < MAX_SESSIONS && 0 <= k < |t.w.learned[s]| ==> HasRow(t.dests, t.w.learned[s][k].key)
  }

  /** No two rows a record could be taken for. */
  predicate DistinctRows(ds: seq<Dest>)
  {
    forall i, j :: 0 <= i < j < |ds| ==> !SameKey(ds[i].key, ds[j].key)
  }

  /** What every event keeps. */
  predicate Framed(t: Tables)
  {
    t.w.Valid() && Covered(t) && DistinctRows(t.dests)
  }

  predicate Minimal(t: Tables)
  {
    AllMinimal(t) && Framed(t)
  }

  lemma {:induction false} MinimalIsRecomputed(t: Tables)
    requires AllMinimal(t)
    ensures Recomputed(t)
  {
    hide RowMinimal, RowRecomputed;
    forall i | 0 <= i < |t.dests| ensures RowRecomputed(t.w, t.dests[i]) {
      InfiniteIffNoOffer(t.w, t.dests[i]);
    }
  }

  lemma {:induction false} InfiniteIffNoOffer(w: World, d: Dest)
    requires w.Valid() && RowMinimal(w, d)
    ensures RowRecomputed(w, d)
  {
    hide MinCost;
    MinCostIsMinimum(w, d.key, MAX_SESSIONS);
    if d.rtt < INFINITY { FiniteRow(w, d); }
    forall si | 0 <= si < MAX_SESSIONS ensures CostVia(w, si, d.key) == INFINITY <==> Report(w, si, d.key).None? {
    }
  }

  /** The other rows being minimal, row `i` decides. */
  lemma {:induction false} AllButOne(u: Tables, i: nat, good: bool)
    requires u.w.Valid() && i < |u.dests|
    requires forall k :: 0 <= k < |u.dests| && k != i ==> RowMinimal(u.w, u.dests[k])
    requires if good then RowMinimal(u.w, u.dests[i]) else !RowRecomputed(u.w, u.dests[i])
    ensures AllMinimal(u) <==> good
    ensures Recomputed(u) <==> good
  {
    hide RowMinimal, RowRecomputed;
    if good { MinimalIsRecomputed(u); } else if AllMinimal(u) { MinimalIsRecomputed(u); }
  }

  /** A finite row's next hop makes the cheapest offer. */
  lemma {:induction false} FiniteRow(w: World, d: Dest)
    requires w.Valid() && RowMinimal(w, d) && d.rtt < INFINITY
    ensures CostVia(w, d.via, d.key) == Cheapest(w, d.key) < INFINITY && w.sessions[d.via].active
  {
    hide MinCost;
  }

  lemma {:induction false} FoundIffRow(ds: seq<Dest>, key: Key)
    ensures FindDest(ds, key, 0) < |ds| <==> HasRow(ds, key)
  {
    FindDestIsFirst(ds, key, 0);
  }

  /** Re-election picks the cheapest offer; the incumbent wins a tie. */
  lemma {:induction false} BestSourceIsMinimum(w: World, key: Key, incumbent: int, n: nat)
    requires w.Valid() && n <= MAX_SESSIONS
    ensures var b := BestSource(w, key, incumbent, n);
            && b.1 == MinCost(w, key, n)
            && (0 <= incumbent < n && CostVia(w, incumbent, key) == b.1 < INFINITY ==> b.0 == incumbent)
  {
    hide CostVia;
    if n > 0 {
      BestSourceIsMinimum(w, key, incumbent, n - 1);
      MinCostIsMinimum(w, key, n - 1);
    }
  }

  lemma {:induction false} ReelectedIsMinimal(w: World, d: Dest)
    requires w.Valid()
    ensures RowMinimal(w, Reelected(w, true, d)) && Reelected(w, true, d).key == d.key
    ensures 0 <= d.via < MAX_SESSIONS && CostVia(w, d.via, d.key) == Cheapest(w, d.key) < INFINITY ==>
              Reelected(w, true, d).via == d.via
  {
    hide MinCost;
    BestSourceIsMinimum(w, d.key, d.via, MAX_SESSIONS);
  }

  // ----- which offers an event changes

  /** All offers for `key` are the same in both worlds, except those of `s`. */
  predicate SameOffersBut(w: World, v: World, key: Key, s: int)
  {
    && w.Valid() && v.Valid()
    && forall si :: 0 <= si < MAX_SESSIONS && si != s ==>
         CostVia(w, si, key) == CostVia(v, si, key) && OfferedRtt(w, si, key) == OfferedRtt(v, si, key)
  }

  lemma {:induction false} SameOffersSameMin(w: World, v: World, key: Key, n: nat)
    requires SameOffersBut(w, v, key, -1) && n <= MAX_SESSIONS
    ensures MinCost(w, key, n) == MinCost(v, key, n)
  {
    if n > 0 { SameOffersSameMin(w, v, key, n - 1); }
  }

  /** A row is as minimal in one world as in another with the same offers. */
  lemma {:induction false} SameOffersSameRow(w: World, v: World, d: Dest)
    requires SameOffersBut(w, v, d.key, -1) && CostHere(w, d.rtt, d.via) == CostHere(v, d.rtt, d.via)
    ensures RowMinimal(w, d) <==> RowMinimal(v, d)
    ensures RowRecomputed(w, d) <==> RowRecomputed(v, d)
  {
    hide CostVia, OfferedRtt, CostHere, MinCost, Report;
    SameOffersSameMin(w, v, d.key, MAX_SESSIONS);
    forall si | 0 <= si < MAX_SESSIONS ensures Report(w, si, d.key).None? <==> Report(v, si, d.key).None? {
      assert OfferedRtt(w, si, d.key) == OfferedRtt(v, si, d.key);
    }
  }

  /** The record gets an entry in the session's learned table. */
  predicate Teaches(w: World, s: nat, r: Record)
    requires w.Valid() && s < MAX_SESSIONS
  {
    r.key.call != "" && (Knows(w.learned[s], r.key) || |w.learned[s]| < MAX_LEARNED)
  }

  lemma {:induction false} IndexOfLearned(ls: seq<Learned>, r: Record, key: Key)
    requires r.key.call != ""
    requires IndexOf(ls, r.key, 0) < |ls| || |ls| < MAX_LEARNED
    ensures var ms := LearnedWith(ls, r);
            && (key != r.key ==> (IndexOf(ms, key, 0) < |ms|) == (IndexOf(ls, key, 0) < |ls|))
            && (key != r.key && IndexOf(ls, key, 0) < |ls| ==> ms[IndexOf(ms, key, 0)] == ls[IndexOf(ls, key, 0)])
            && (key == r.key ==> IndexOf(ms, key, 0) < |ms| && ms[IndexOf(ms, key, 0)].rtt == r.rtt)
  {
    var ms := LearnedWith(ls, r);
    var i, j := IndexOf(ls, key, 0), IndexOf(ms, key, 0);
    IndexOfIsFirst(ls, key, 0);
    IndexOfIsFirst(ms, key, 0);
    IndexOfIsFirst(ls, r.key, 0);
    assert forall k :: 0 <= k < |ls| ==> ms[k].key == ls[k].key;
    if i < |ls| {
      assert ms[i].key == key;
      assert j == i;
    } else if key == r.key {
      assert ms[|ls|].key == key;
    }
  }

  lemma {:induction false} TaughtOffers(w: World, s: nat, r: Record, key: Key, si: nat)
    requires w.Valid() && s < MAX_SESSIONS && si < MAX_SESSIONS && r.rtt > 0 && Teaches(w, s, r)
    ensures var v := Taught(w, s, r);
            && (si != s || key != r.key ==>
                  CostVia(v, si, key) == CostVia(w, si, key) && OfferedRtt(v, si, key) == OfferedRtt(w, si, key))
            && (si == s && key == r.key && w.sessions[s].active ==>
                  && CostVia(v, si, key) == CostHere(w, OptsCost(w.opts[s], r.rtt), s)
                  && (r.rtt < INFINITY ==> OfferedRtt(v, si, key) == OptsCost(w.opts[s], r.rtt)))
  {
    IndexOfLearned(w.learned[s], r, key);
  }

  lemma {:induction false} CostHereTaught(w: World, s: nat, r: Record, rtt: int, si: int)
    requires w.Valid() && s < MAX_SESSIONS
    ensures CostHere(Taught(w, s, r), rtt, si) == CostHere(w, rtt, si)
  {
  }

  /** Other rows are untouched by a record. */
  lemma {:induction false} TaughtElsewhere(w: World, s: nat, r: Record, d: Dest)
    requires w.Valid() && s < MAX_SESSIONS && r.rtt > 0 && Teaches(w, s, r) && d.key != r.key
    requires RowMinimal(w, d)
    ensures RowMinimal(Taught(w, s, r), d)
  {
    hide CostVia, OfferedRtt, Taught, CostHere, Teaches, RowMinimal;
    var v := Taught(w, s, r);
    forall si | 0 <= si < MAX_SESSIONS
      ensures CostVia(w, si, d.key) == CostVia(v, si, d.key) && OfferedRtt(w, si, d.key) == OfferedRtt(v, si, d.key)
    {
      TaughtOffers(w, s, r, d.key, si);
    }
    CostHereTaught(w, s, r, d.rtt, d.via);
    SameOffersSameRow(w, v, d);
  }

  /** The row flex_dtable_merge writes. */
  function RowOf(w: World, s: nat, r: Record, key: Key): Dest
    requires w.Valid() && s < MAX_SESSIONS
  {
    Dest(key, OptsCost(w.opts[s], r.rtt), r.Withdrawal(), w.sessions[s].port, s)
  }

  /** A record from a session that is not the row's next hop: take it only if it is
      strictly cheaper. */
  lemma {:induction false} TaughtRival(w: World, s: nat, r: Record, d: Dest)
    requires w.Valid() && s < MAX_SESSIONS && w.sessions[s].active && r.rtt > 0 && Teaches(w, s, r)
    requires d.key == r.key && d.via != s && RowMinimal(w, d)
    ensures RowMinimal(Taught(w, s, r), if CostHere(w, OptsCost(w.opts[s], r.rtt), s) < CostHere(w, d.rtt, d.via)
                                        then RowOf(w, s, r, d.key) else d)
  {
    hide CostVia, OfferedRtt, Taught, Teaches, IndexOf, MinCost;
    var v := Taught(w, s, r);
    var eff := OptsCost(w.opts[s], r.rtt);
    forall si | 0 <= si < MAX_SESSIONS
      ensures si != s ==>
              CostVia(w, si, d.key) == CostVia(v, si, d.key) && OfferedRtt(w, si, d.key) == OfferedRtt(v, si, d.key)
    {
      TaughtOffers(w, s, r, d.key, si);
    }
    TaughtOffers(w, s, r, d.key, s);
    if d.rtt < INFINITY { FiniteRow(w, d); }
    MinCostIsMinimum(w, d.key, MAX_SESSIONS);
    MinCostIsMinimum(v, d.key, MAX_SESSIONS);
    CostHereTaught(w, s, r, d.rtt, d.via);
    CostHereTaught(w, s, r, eff, s);
    EffInfinite(w.opts[s], r.rtt);
  }

  lemma {:induction false} EffInfinite(opts: set<LinkOpt>, rtt: int)
    requires rtt > 0
    ensures OptsCost(opts, rtt) >= INFINITY <==> rtt >= INFINITY
    ensures OptsCost(opts, rtt) > 0
  {
  }

  // ----- what one record keeps

  /** A record as its reader delivers it, on a session that is up. */
  predicate InSession(t: Tables, r: Record, s: nat)
  {
    t.w.Valid() && s < MAX_SESSIONS && t.w.sessions[s].active && r.rtt >= 0
  }

  /** The record makes a new row, or replaces a next hop that costs more. */
  predicate Replaces(t: Tables, r: Record, s: nat)
    requires t.w.Valid() && s < MAX_SESSIONS
  {
    var i := FindDest(t.dests, r.key, 0);
    i == |t.dests| ||
    (t.dests[i].via != s &&
     CostHere(t.w, OptsCost(t.w.opts[s], r.rtt), s) < CostHere(t.w, t.dests[i].rtt, t.dests[i].via))
  }

  /** The row the record is taken for, if there is one, has exactly its key. */
  predicate SameSpelling(ds: seq<Dest>, key: Key)
  {
    var i := FindDest(ds, key, 0);
    i < |ds| ==> ds[i].key == key
  }

  /** What decides, before the record is merged, whether every row stays minimal. A
      record that is ignored or replaces nothing does no harm. One that takes a row
      must leave a learned entry under the key of that row, unless it is a withdrawal
      that leaves none. */
  predicate MergeKeeps(t: Tables, ours: bool, r: Record, s: nat)
    requires t.w.Valid() && s < MAX_SESSIONS
  {
    || ours || r.rtt == 0
    || FindDest(t.dests, r.key, 0) == |t.dests| >= MAX_DESTS
    || !Replaces(t, r, s)
    || (if Teaches(t.w, s, r) then SameSpelling(t.dests, r.key) else r.Withdrawal())
  }

  lemma {:induction false} NoRowNoOffer(t: Tables, key: Key, si: nat)
    requires t.w.Valid() && Covered(t) && si < MAX_SESSIONS && !HasRow(t.dests, key)
    ensures CostVia(t.w, si, key) == INFINITY == OfferedRtt(t.w, si, key)
  {
    var ls := t.w.learned[si];
    assert forall k :: 0 <= k < |ls| ==> HasRow(t.dests, ls[k].key);
    assert forall i :: 0 <= i < |t.dests| ==> !SameKey(t.dests[i].key, key);
  }

  /** Nobody has offered a destination that has no row, so its first record sets
      the minimum if it is learned, and must not be finite otherwise. */
  lemma {:induction false} NewRow(t: Tables, r: Record, s: nat)
    requires Framed(t) && InSession(t, r, s) && r.rtt > 0 && !HasRow(t.dests, r.key)
    ensures var v, d := Learnt(t.w, s, r), RowOf(t.w, s, r, r.key);
            if Teaches(t.w, s, r) || r.Withdrawal() then RowMinimal(v, d) else !RowRecomputed(v, d)
  {
    hide Taught, HasRow, CostVia, OfferedRtt, MinCost, Teaches, DistinctRows, Covered;
    var v := Taught(t.w, s, r);
    forall si | 0 <= si < MAX_SESSIONS
      ensures CostVia(t.w, si, r.key) == INFINITY
      ensures Teaches(t.w, s, r) && si != s ==> CostVia(v, si, r.key) == INFINITY
    {
      if Teaches(t.w, s, r) { TaughtOffers(t.w, s, r, r.key, si); }
      NoRowNoOffer(t, r.key, si);
    }
    if Teaches(t.w, s, r) {
      TaughtOffers(t.w, s, r, r.key, s);
      MinCostIsMinimum(v, r.key, MAX_SESSIONS);
      CostHereTaught(t.w, s, r, OptsCost(t.w.opts[s], r.rtt), s);
    } else {
      MinCostIsMinimum(t.w, r.key, MAX_SESSIONS);
    }
    EffInfinite(t.w.opts[s], r.rtt);
  }

  /** The world after the record, whether or not it leaves an entry. */
  function Learnt(w: World, s: nat, r: Record): (v: World)
    requires w.Valid() && s < MAX_SESSIONS
    ensures v.Valid()
  {
    if Teaches(w, s, r) then Taught(w, s, r) else w
  }

  lemma {:induction false} LearntIsTaught(w: World, s: nat, r: Record)
    requires w.Valid() && s < MAX_SESSIONS
    ensures Learnt(w, s, r) == Taught(w, s, r)
  {
    if !Teaches(w, s, r) { assert Taught(w, s, r) == w; }
  }

  lemma {:induction false} CheaperIsNotMinimal(w: World, v: World, d: Dest, e: Dest)
    requires w.Valid() && v.Valid() && RowMinimal(w, d) && e.key == d.key && Cheapest(v, d.key) == Cheapest(w, d.key)
    requires CostHere(v, e.rtt, e.via) < CostHere(w, d.rtt, d.via)
    ensures !RowRecomputed(v, e)
  {
    hide CostHere, Cheapest;
  }

  lemma {:induction false} TaughtCheapest(w: World, s: nat, r: Record, key: Key)
    requires w.Valid() && s < MAX_SESSIONS && r.rtt > 0 && Teaches(w, s, r) && key != r.key
    ensures Cheapest(Taught(w, s, r), key) == Cheapest(w, key)
  {
    hide CostVia, OfferedRtt, Taught, Teaches, MinCost;
    var v := Taught(w, s, r);
    forall si | 0 <= si < MAX_SESSIONS
      ensures CostVia(w, si, key) == CostVia(v, si, key) && OfferedRtt(w, si, key) == OfferedRtt(v, si, key)
    {
      TaughtOffers(w, s, r, key, si);
    }
    SameOffersSameMin(w, v, key, MAX_SESSIONS);
  }

  /** The row of another next hop that the record finds. */
  lemma {:induction false} FoundRow(t: Tables, r: Record, s: nat)
    requires Minimal(t) && InSession(t, r, s) && r.rtt > 0
    requires var i := FindDest(t.dests, r.key, 0); i < |t.dests| && t.dests[i].via != s
    ensures var d, v := t.dests[FindDest(t.dests, r.key, 0)], Learnt(t.w, s, r);
            var e := if Replaces(t, r, s) then RowOf(t.w, s, r, d.key) else d;
            if MergeKeeps(t, false, r, s) then RowMinimal(v, e) else !RowRecomputed(v, e)
  {
    hide Taught, RowMinimal, RowRecomputed, HasRow, CostHere, CostVia, Cheapest, Teaches, Covered, DistinctRows;
    var d := t.dests[FindDest(t.dests, r.key, 0)];
    assert RowMinimal(t.w, d);
    if !Teaches(t.w, s, r) {
      if Replaces(t, r, s) {
        CheaperIsNotMinimal(t.w, t.w, d, RowOf(t.w, s, r, d.key));
        if r.Withdrawal() { WithdrawalNotCheaper(t.w, s, r, d); }
      }
    } else if d.key == r.key {
      TaughtRival(t.w, s, r, d);
    } else if Replaces(t, r, s) {
      TaughtCheapest(t.w, s, r, d.key);
      CostHereTaught(t.w, s, r, OptsCost(t.w.opts[s], r.rtt), s);
      CheaperIsNotMinimal(t.w, Taught(t.w, s, r), d, RowOf(t.w, s, r, d.key));
    } else {
      TaughtElsewhere(t.w, s, r, d);
    }
  }

  lemma {:induction false} WithdrawalNotCheaper(w: World, s: nat, r: Record, d: Dest)
    requires w.Valid() && s < MAX_SESSIONS && r.Withdrawal()
    ensures !(CostHere(w, OptsCost(w.opts[s], r.rtt), s) < CostHere(w, d.rtt, d.via))
  {
  }

  /** The rows after a merge. */
  lemma {:induction false} MergeRows(t: Tables, r: Record, s: nat)
    requires t.w.Valid() && s < MAX_SESSIONS && r.rtt != 0
    ensures var u := Merge(t, true, false, r, s).0; var i, n := FindDest(t.dests, r.key, 0), |t.dests|;
            && |u.dests| == (if i == n < MAX_DESTS then n + 1 else n)
            && (forall k :: 0 <= k < n ==> u.dests[k].key == t.dests[k].key)
            && (forall k :: 0 <= k < n && k != i ==> u.dests[k] == t.dests[k])
            && (i == n < MAX_DESTS ==> u.dests[n] == RowOf(t.w, s, r, r.key))
            && (i < n && t.dests[i].via == s ==>
                  u.dests[i] == Reelected(u.w, true, RowOf(t.w, s, r, t.dests[i].key)))
            && (i < n && t.dests[i].via != s ==>
                  u.dests[i] == if Replaces(t, r, s) then RowOf(t.w, s, r, t.dests[i].key) else t.dests[i])
            && (if i < n || n < MAX_DESTS then u.w == Taught(t.w, s, r) else u == t)
  {
    hide Taught, CostHere, CostVia;
  }

  /** The row a record finds or makes. */
  lemma {:induction false} MergeRow(t: Tables, r: Record, s: nat)
    requires Minimal(t) && InSession(t, r, s) && r.rtt > 0
    requires FindDest(t.dests, r.key, 0) < |t.dests| || |t.dests| < MAX_DESTS
    ensures var u := Merge(t, true, false, r, s).0; var i := FindDest(t.dests, r.key, 0);
            i < |u.dests| &&
            if MergeKeeps(t, false, r, s) then RowMinimal(u.w, u.dests[i]) else !RowRecomputed(u.w, u.dests[i])
  {
    hide Merge, Taught, RowMinimal, RowRecomputed, HasRow, CostHere, CostVia, Cheapest, Teaches, Covered;
    hide DistinctRows, Reelected;
    MergeRows(t, r, s);
    LearntIsTaught(t.w, s, r);
    FoundIffRow(t.dests, r.key);
    var i := FindDest(t.dests, r.key, 0);
    if i == |t.dests| {
      NewRow(t, r, s);
    } else if t.dests[i].via == s {
      ReelectedIsMinimal(Taught(t.w, s, r), RowOf(t.w, s, r, t.dests[i].key));
    } else {
      FoundRow(t, r, s);
    }
  }

  /** No other row has the record's key. */
  lemma {:induction false} OtherKey(ds: seq<Dest>, k: nat, key: Key)
    requires DistinctRows(ds) && k < |ds| && k != FindDest(ds, key, 0)
    ensures ds[k].key != key
  {
    FindDestIsFirst(ds, key, 0);
  }

  lemma {:induction false} KeysKept(ds: seq<Dest>, es: seq<Dest>, key: Key)
    requires |ds| <= |es| && forall i :: 0 <= i < |ds| ==> es[i].key == ds[i].key
    ensures HasRow(ds, key) ==> HasRow(es, key)
  {
  }

  lemma {:induction false} LearnedKeys(ls: seq<Learned>, r: Record, k: nat)
    requires k < |LearnedWith(ls, r)|
    ensures LearnedWith(ls, r)[k].key == r.key || (k < |ls| && LearnedWith(ls, r)[k].key == ls[k].key)
  {
  }

  lemma {:induction false} MergedCovered(t: Tables, u: Tables, r: Record, s: nat)
    requires t.w.Valid() && s < MAX_SESSIONS && Covered(t) && u.w == Taught(t.w, s, r)
    requires |t.dests| <= |u.dests| && HasRow(u.dests, r.key)
    requires forall k :: 0 <= k < |t.dests| ==> u.dests[k].key == t.dests[k].key
    ensures Covered(u)
  {
    forall q, k | 0 <= q < MAX_SESSIONS && 0 <= k < |u.w.learned[q]|
      ensures HasRow(u.dests, u.w.learned[q][k].key)
    {
      if q == s { LearnedKeys(t.w.learned[s], r, k); }
      if u.w.learned[q][k].key != r.key { KeysKept(t.dests, u.dests, u.w.learned[q][k].key); }
    }
  }

  /** Any record keeps the frame. */
  lemma {:induction false} MergeKeepsFrame(t: Tables, ours: bool, r: Record, s: nat)
    requires Framed(t) && s < MAX_SESSIONS
    ensures Framed(Merge(t, true, ours, r, s).0)
  {
    hide Merge, SameKey, Covered, Taught;
    if ours || r.rtt == 0 {
      IgnoredRecord(t, ours, r, s);
    } else {
      MergeRows(t, r, s);
      FindDestIsFirst(t.dests, r.key, 0);
      var u, i := Merge(t, true, false, r, s).0, FindDest(t.dests, r.key, 0);
      MergedDistinct(t, u, r, s);
      if i < |t.dests| || |t.dests| < MAX_DESTS {
        SameKeyReflexive(r.key);
        assert SameKey(u.dests[i].key, r.key);
        MergedCovered(t, u, r, s);
      }
    }
  }

  lemma {:induction false} IgnoredRecord(t: Tables, ours: bool, r: Record, s: nat)
    requires t.w.Valid() && s < MAX_SESSIONS && (ours || r.rtt == 0)
    ensures Merge(t, true, ours, r, s).0 == t
  {
  }

  lemma {:induction false} SameKeyReflexive(key: Key)
    ensures SameKey(key, key)
  {
  }

  lemma {:induction false} MergedDistinct(t: Tables, u: Tables, r: Record, s: nat)
    requires t.w.Valid() && s < MAX_SESSIONS && r.rtt != 0 && DistinctRows(t.dests)
    requires u == Merge(t, true, false, r, s).0
    ensures DistinctRows(u.dests)
  {
    hide Merge, SameKey;
    MergeRows(t, r, s);
    FindDestIsFirst(t.dests, r.key, 0);
  }

  /** The rows a record does not find are as minimal as before. */
  lemma {:induction false} MergeElsewhere(t: Tables, r: Record, s: nat, k: nat)
    requires Minimal(t) && InSession(t, r, s) && r.rtt > 0 && k < |t.dests| && k != FindDest(t.dests, r.key, 0)
    ensures RowMinimal(Learnt(t.w, s, r), t.dests[k])
  {
    hide RowMinimal, Taught, SameKey, Teaches, Covered, DistinctRows;
    OtherKey(t.dests, k, r.key);
    if Teaches(t.w, s, r) { TaughtElsewhere(t.w, s, r, t.dests[k]); }
  }

  /** After a record every row holds what a computation from scratch gives exactly
      under the guard. */
  lemma {:induction false} MergeKeepsMinimal(t: Tables, ours: bool, r: Record, s: nat)
    requires Minimal(t) && InSession(t, r, s)
    ensures var u := Merge(t, true, ours, r, s).0;
            && Framed(u)
            && (AllMinimal(u) <==> MergeKeeps(t, ours, r, s))
            && (Recomputed(u) <==> MergeKeeps(t, ours, r, s))
  {
    hide RowMinimal, RowRecomputed, Recomputed, Taught, Learnt, Teaches, Merge, Replaces, Covered, DistinctRows;
    MergeKeepsFrame(t, ours, r, s);
    MinimalIsRecomputed(t);
    if ours || r.rtt == 0 {
      IgnoredRecord(t, ours, r, s);
    } else {
      var u, i := Merge(t, true, false, r, s).0, FindDest(t.dests, r.key, 0);
      MergeRows(t, r, s);
      LearntIsTaught(t.w, s, r);
      if i < |t.dests| || |t.dests| < MAX_DESTS {
        MergeRow(t, r, s);
        forall k | 0 <= k < |u.dests| && k != i ensures RowMinimal(u.w, u.dests[k]) { MergeElsewhere(t, r, s, k); }
        AllButOne(u, i, MergeKeeps(t, false, r, s));
      }
    }
  }

  lemma {:induction false} FlaggedOffers(w: World, s: nat, key: Key, other: Key, si: nat)
    requires w.Valid() && s < MAX_SESSIONS && si < MAX_SESSIONS
    ensures var v := w.(learned := w.learned[s := Flagged(w.learned[s], key)]);
            OfferedRtt(v, si, other) == OfferedRtt(w, si, other) && CostVia(v, si, other) == CostVia(w, si, other)
  {
    var ls, ms := w.learned[s], Flagged(w.learned[s], key);
    IndexOfIsFirst(ls, other, 0);
    IndexOfIsFirst(ms, other, 0);
    assert forall k :: 0 <= k < |ls| ==> ms[k].key == ls[k].key && ms[k].rtt == ls[k].rtt;
    assert IndexOf(ms, other, 0) == IndexOf(ls, other, 0);
  }

  /** The flag changes no offer. */
  lemma {:induction false} FlagKeepsMinimal(t: Tables, s: nat, key: Key)
    requires t.w.Valid() && s < MAX_SESSIONS
    ensures AllMinimal(WithFlag(t, s, key)) <==> AllMinimal(t)
    ensures Recomputed(WithFlag(t, s, key)) <==> Recomputed(t)
    ensures Framed(WithFlag(t, s, key)) <==> Framed(t)
  {
    hide RowMinimal, RowRecomputed, OfferedRtt, CostVia, DistinctRows;
    var u := WithFlag(t, s, key);
    forall i | 0 <= i < |t.dests|
      ensures RowMinimal(u.w, t.dests[i]) <==> RowMinimal(t.w, t.dests[i])
      ensures RowRecomputed(u.w, t.dests[i]) <==> RowRecomputed(t.w, t.dests[i])
    {
      forall si | 0 <= si < MAX_SESSIONS
        ensures OfferedRtt(u.w, si, t.dests[i].key) == OfferedRtt(t.w, si, t.dests[i].key)
        ensures CostVia(u.w, si, t.dests[i].key) == CostVia(t.w, si, t.dests[i].key)
      {
        FlaggedOffers(t.w, s, key, t.dests[i].key, si);
      }
      SameOffersSameRow(u.w, t.w, t.dests[i]);
    }
    FlaggedKeys(t.w.learned[s], key);
    assert forall q, k :: 0 <= q < MAX_SESSIONS && 0 <= k < |t.w.learned[q]| ==>
        u.w.learned[q][k].key == t.w.learned[q][k].key;
    SameCovered(t, u);
  }

  lemma {:induction false} FlaggedKeys(ls: seq<Learned>, key: Key)
    ensures forall k :: 0 <= k < |ls| ==> Flagged(ls, key)[k].key == ls[k].key
  {
  }

  lemma {:induction false} SameCovered(t: Tables, u: Tables)
    requires t.w.Valid() && u.w.Valid() && t.dests == u.dests
    requires forall q :: 0 <= q < MAX_SESSIONS ==> |t.w.learned[q]| == |u.w.learned[q]|
    requires forall q, k :: 0 <= q < MAX_SESSIONS && 0 <= k < |t.w.learned[q]| ==>
               u.w.learned[q][k].key == t.w.learned[q][k].key
    ensures Covered(t) <==> Covered(u)
  {
  }

  // ----- sessions that come and go

  lemma {:induction false} ClosedOffers(w: World, s: nat, key: Key, si: nat)
    requires w.Valid() && s < MAX_SESSIONS && si < MAX_SESSIONS
    ensures si != s ==>
              CostVia(Closed(w, s), si, key) == CostVia(w, si, key) &&
                OfferedRtt(Closed(w, s), si, key) == OfferedRtt(w, si, key)
    ensures si == s ==> CostVia(Closed(w, s), si, key) == INFINITY
  {
  }

  /** A row routed elsewhere keeps its minimum when `s` goes away. */
  lemma {:induction false} ClosedElsewhere(w: World, s: nat, d: Dest)
    requires w.Valid() && s < MAX_SESSIONS && d.via != s && RowMinimal(w, d)
    ensures RowMinimal(Closed(w, s), d)
  {
    hide CostVia, OfferedRtt, MinCost;
    var v := Closed(w, s);
    forall si | 0 <= si < MAX_SESSIONS
      ensures si != s ==>
              CostVia(v, si, d.key) == CostVia(w, si, d.key) && OfferedRtt(v, si, d.key) == OfferedRtt(w, si, d.key)
      ensures si == s ==> CostVia(v, si, d.key) == INFINITY
    {
      ClosedOffers(w, s, d.key, si);
    }
    if d.rtt < INFINITY { FiniteRow(w, d); }
    MinCostIsMinimum(w, d.key, MAX_SESSIONS);
    MinCostIsMinimum(v, d.key, MAX_SESSIONS);
  }

  /** The rows keep their keys, and every learned entry was there before. */
  lemma {:induction false} SameFrame(t: Tables, u: Tables)
    requires Framed(t) && u.w.Valid() && u.w.learned == t.w.learned && |u.dests| == |t.dests|
    requires forall i :: 0 <= i < |t.dests| ==> u.dests[i].key == t.dests[i].key
    ensures Framed(u)
  {
    hide SameKey;
    forall q, k | 0 <= q < MAX_SESSIONS && 0 <= k < |u.w.learned[q]|
      ensures HasRow(u.dests, u.w.learned[q][k].key)
    {
      KeysKept(t.dests, u.dests, t.w.learned[q][k].key);
    }
  }

  lemma {:induction false} CloseKeepsFrame(t: Tables, s: nat)
    requires Framed(t) && s < MAX_SESSIONS
    ensures Framed(Close(t, true, s))
  {
    hide Reelected, Covered, DistinctRows, RowMinimal;
    var u := Close(t, true, s);
    forall i | 0 <= i < |t.dests| ensures u.dests[i].key == t.dests[i].key { ReelectedIsMinimal(u.w, t.dests[i]); }
    SameFrame(t, u);
  }

  /** Losing a session keeps every row minimal over the sessions that are left. */
  lemma {:induction false} CloseKeepsMinimal(t: Tables, s: nat)
    requires Minimal(t) && s < MAX_SESSIONS
    ensures Minimal(Close(t, true, s)) && Recomputed(Close(t, true, s))
  {
    hide RowMinimal, RowRecomputed, Recomputed, Reelected, Covered, DistinctRows;
    var u := Close(t, true, s);
    forall i | 0 <= i < |u.dests| ensures RowMinimal(u.w, u.dests[i]) {
      ReelectedIsMinimal(u.w, t.dests[i]);
      if !NeedsReelection(t.dests[i], s) {
        ClosedElsewhere(t.w, s, t.dests[i]);
      }
    }
    CloseKeepsFrame(t, s);
    MinimalIsRecomputed(u);
  }

  /** The slot is free, and so is the one whose table it takes over. */
  predicate MayOpen(t: Tables, s: nat, from: Option<nat>)
  {
    && t.w.Valid() && s < MAX_SESSIONS && !t.w.sessions[s].active
    && (from.Some? ==> from.value < MAX_SESSIONS && !t.w.sessions[from.value].active)
  }

  /** No row has its destination offered cheaper by the table taken over. */
  predicate OpenKeeps(t: Tables, s: nat, session: Session, opts: set<LinkOpt>, from: Option<nat>)
    requires MayOpen(t, s, from)
  {
    forall i :: 0 <= i < |t.dests| ==>
      CostHere(t.w, t.dests[i].rtt, t.dests[i].via) <= CostVia(Open(t, s, session, opts, from).w, s, t.dests[i].key)
  }

  lemma {:induction false} OpenedOffers(t: Tables, s: nat, session: Session, opts: set<LinkOpt>, from: Option<nat>,
                                        key: Key, si: nat)
    requires MayOpen(t, s, from) && si < MAX_SESSIONS && si != s
    ensures var v := Open(t, s, session, opts, from).w;
            CostVia(v, si, key) == CostVia(t.w, si, key) && OfferedRtt(v, si, key) == OfferedRtt(t.w, si, key)
  {
  }

  lemma {:induction false} IdleOffersNothing(w: World, si: nat, key: Key)
    requires w.Valid() && si < MAX_SESSIONS && !w.sessions[si].active
    ensures CostVia(w, si, key) == INFINITY == OfferedRtt(w, si, key)
  {
  }

  lemma {:induction false} NothingInherited(t: Tables, s: nat, session: Session, opts: set<LinkOpt>)
    requires MayOpen(t, s, None)
    ensures OpenKeeps(t, s, session, opts, None)
  {
    var v := Open(t, s, session, opts, None).w;
    forall key: Key ensures CostVia(v, s, key) == INFINITY {
      assert v.learned[s] == [];
    }
  }

  lemma {:induction false} OpenKeepsFrame(t: Tables, s: nat, session: Session, opts: set<LinkOpt>,
                                          from: Option<nat>)
    requires MayOpen(t, s, from) && Framed(t)
    ensures Framed(Open(t, s, session, opts, from))
  {
    hide HasRow, DistinctRows;
  }

  /** A row after a session came up: the other offers are as they were. */
  lemma {:induction false} OpenedRow(t: Tables, s: nat, session: Session, opts: set<LinkOpt>, from: Option<nat>,
                                     d: Dest)
    requires MayOpen(t, s, from) && RowMinimal(t.w, d)
    ensures var v := Open(t, s, session, opts, from).w;
            var keeps := CostHere(t.w, d.rtt, d.via) <= CostVia(v, s, d.key);
            (RowMinimal(v, d) <==> keeps) && (RowRecomputed(v, d) <==> keeps)
  {
    hide CostVia, OfferedRtt, MinCost, Open;
    var v := Open(t, s, session, opts, from).w;
    forall si | 0 <= si < MAX_SESSIONS && si != s
      ensures CostVia(v, si, d.key) == CostVia(t.w, si, d.key) && OfferedRtt(v, si, d.key) == OfferedRtt(t.w, si, d.key)
    {
      OpenedOffers(t, s, session, opts, from, d.key, si);
    }
    IdleOffersNothing(t.w, s, d.key);
    if d.rtt < INFINITY {
      FiniteRow(t.w, d);
      OpenedCost(t, s, session, opts, from, d);
    }
    MinCostIsMinimum(t.w, d.key, MAX_SESSIONS);
    MinCostIsMinimum(v, d.key, MAX_SESSIONS);
    if RowMinimal(v, d) { InfiniteIffNoOffer(v, d); }
  }

  lemma {:induction false} OpenedCost(t: Tables, s: nat, session: Session, opts: set<LinkOpt>, from: Option<nat>,
                                      d: Dest)
    requires MayOpen(t, s, from) && 0 <= d.via < MAX_SESSIONS && d.via != s
    ensures CostHere(Open(t, s, session, opts, from).w, d.rtt, d.via) == CostHere(t.w, d.rtt, d.via)
  {
  }

  /** A session that starts keeps the table minimal exactly when it takes over no table
      that offers something cheaper; with an empty table it always does. */
  lemma {:induction false} OpenKeepsMinimal(t: Tables, s: nat, session: Session, opts: set<LinkOpt>,
                                            from: Option<nat>)
    requires Minimal(t) && MayOpen(t, s, from)
    ensures var u := Open(t, s, session, opts, from);
            && Framed(u)
            && (AllMinimal(u) <==> OpenKeeps(t, s, session, opts, from))
            && (Recomputed(u) <==> OpenKeeps(t, s, session, opts, from))
    ensures from.None? ==> OpenKeeps(t, s, session, opts, from)
  {
    hide CostVia, OfferedRtt, MinCost, DistinctRows, RowMinimal, RowRecomputed, Covered, CostHere;
    var u := Open(t, s, session, opts, from);
    OpenKeepsFrame(t, s, session, opts, from);
    forall i | 0 <= i < |t.dests|
      ensures var keeps := CostHere(t.w, t.dests[i].rtt, t.dests[i].via) <= CostVia(u.w, s, t.dests[i].key);
              (RowMinimal(u.w, u.dests[i]) <==> keeps) && (RowRecomputed(u.w, u.dests[i]) <==> keeps)
    {
      OpenedRow(t, s, session, opts, from, t.dests[i]);
    }
    if from.None? { NothingInherited(t, s, session, opts); }
  }

  // ----- a link time that changes

  /** The world once session `s` reports link time `lt`; no row is chosen again. */
  function Sampled(w: World, s: nat, lt: int): (v: World)
    requires w.Valid() && s < MAX_SESSIONS
    ensures v.Valid()
  {
    w.(sessions := w.sessions[s := w.sessions[s].(linkTime := lt)])
  }

  /** The row's next hop is still the cheapest: at its new link time, if it is `s`
      itself, and otherwise against what `s` offers at its new link time. */
  predicate StillCheapest(w: World, s: nat, lt: int, d: Dest)
    requires w.Valid() && s < MAX_SESSIONS
  {
    var v := Sampled(w, s, lt);
    if d.via == s then
      d.rtt >= INFINITY || forall si :: 0 <= si < MAX_SESSIONS && si != s ==>
        CostHere(v, d.rtt, s) <= CostVia(w, si, d.key)
    else CostHere(w, d.rtt, d.via) <= CostVia(v, s, d.key)
  }

  lemma {:induction false} SampledOffers(w: World, s: nat, lt: int, key: Key, si: nat)
    requires w.Valid() && s < MAX_SESSIONS && si < MAX_SESSIONS
    ensures var v := Sampled(w, s, lt);
            && OfferedRtt(v, si, key) == OfferedRtt(w, si, key)
            && (si != s ==> CostVia(v, si, key) == CostVia(w, si, key))
            && CostVia(v, si, key) == CostHere(v, OfferedRtt(w, si, key), si)
            && (CostVia(v, si, key) == INFINITY <==> CostVia(w, si, key) == INFINITY)
  {
  }

  /** A sample of one link time keeps a row minimal exactly under that condition. */
  lemma {:induction false} SampleKeepsRow(w: World, s: nat, lt: int, d: Dest)
    requires w.Valid() && s < MAX_SESSIONS && RowMinimal(w, d)
    ensures RowMinimal(Sampled(w, s, lt), d) <==> StillCheapest(w, s, lt, d)
    ensures RowRecomputed(Sampled(w, s, lt), d) <==> StillCheapest(w, s, lt, d)
  {
    hide CostVia, OfferedRtt, MinCost;
    var v := Sampled(w, s, lt);
    forall si | 0 <= si < MAX_SESSIONS
      ensures OfferedRtt(v, si, d.key) == OfferedRtt(w, si, d.key)
      ensures si != s ==> CostVia(v, si, d.key) == CostVia(w, si, d.key)
      ensures CostVia(v, si, d.key) == INFINITY <==> CostVia(w, si, d.key) == INFINITY
    {
      SampledOffers(w, s, lt, d.key, si);
    }
    if d.rtt < INFINITY {
      FiniteRow(w, d);
      SampledOffers(w, s, lt, d.key, d.via);
    }
    MinCostIsMinimum(w, d.key, MAX_SESSIONS);
    MinCostIsMinimum(v, d.key, MAX_SESSIONS);
    if RowMinimal(v, d) { InfiniteIffNoOffer(v, d); }
  }

  predicate SampleKeeps(t: Tables, s: nat, lt: int)
    requires t.w.Valid() && s < MAX_SESSIONS
  {
    forall i :: 0 <= i < |t.dests| ==> StillCheapest(t.w, s, lt, t.dests[i])
  }

  lemma {:induction false} SampleKeepsFrame(t: Tables, s: nat, lt: int)
    requires Framed(t) && s < MAX_SESSIONS
    ensures Framed(t.(w := Sampled(t.w, s, lt)))
  {
    hide Covered, DistinctRows;
    SameFrame(t, t.(w := Sampled(t.w, s, lt)));
  }

  /** Rows are not chosen again when a link time changes, so a sample keeps the
      table minimal exactly when every row passes that comparison. */
  lemma {:induction false} SampleKeepsMinimal(t: Tables, s: nat, lt: int)
    requires Minimal(t) && s < MAX_SESSIONS
    ensures var u := t.(w := Sampled(t.w, s, lt));
            && Framed(u)
            && (AllMinimal(u) <==> SampleKeeps(t, s, lt))
            && (Recomputed(u) <==> SampleKeeps(t, s, lt))
  {
    hide RowMinimal, RowRecomputed, StillCheapest, DistinctRows, Covered;
    var u := t.(w := Sampled(t.w, s, lt));
    forall i | 0 <= i < |t.dests|
      ensures RowMinimal(u.w, u.dests[i]) <==> StillCheapest(t.w, s, lt, t.dests[i])
      ensures RowRecomputed(u.w, u.dests[i]) <==> StillCheapest(t.w, s, lt, t.dests[i])
    {
      SampleKeepsRow(t.w, s, lt, t.dests[i]);
    }
    SampleKeepsFrame(t, s, lt);
  }

  // ----- link options that change

  /** What the change adds to a cost reported over the link. */
  function PenaltyMove(was: set<LinkOpt>, opts: set<LinkOpt>): int
  {
    (if Penalty in opts then LINK_PENALTY else 0) - (if Penalty in was then LINK_PENALTY else 0)
  }

  /** A row with a finite cost through the link is moved, between 1 and the largest
      finite cost. */
  function Shifted(d: Dest, s: nat, move: int): Dest
  {
    if move == 0 || d.via != s || d.isInf || !(0 < d.rtt < INFINITY) then d
    else d.(rtt := if d.rtt + move < 1 then 1 else Capped(d.rtt + move))
  }

  function ShiftedRows(ds: seq<Dest>, s: nat, move: int): (r: seq<Dest>)
    ensures |r| == |ds| && forall i :: 0 <= i < |ds| ==> r[i] == Shifted(ds[i], s, move)
  {
    seq(|ds|, i requires 0 <= i < |ds| => Shifted(ds[i], s, move))
  }

  function Reopted(w: World, s: nat, opts: set<LinkOpt>): (v: World)
    requires w.Valid() && s < MAX_SESSIONS
    ensures v.Valid()
  {
    w.(opts := w.opts[s := opts])
  }

  /** The tables part of flex_link_opts_changed: rows are moved, and none is chosen
      again. */
  function Reoptioned(t: Tables, s: nat, opts: set<LinkOpt>): (u: Tables)
    requires t.w.Valid() && s < MAX_SESSIONS
    ensures u.w.Valid()
  {
    Tables(Reopted(t.w, s, opts), ShiftedRows(t.dests, s, PenaltyMove(t.w.opts[s], opts)))
  }

  /** The cost reported by the link was not cut short when its penalty was added, or
      its penalty stays. */
  predicate MoveIsExact(w: World, s: nat, opts: set<LinkOpt>, key: Key)
    requires w.Valid() && s < MAX_SESSIONS
  {
    Penalty in opts || Penalty !in w.opts[s] ||
    (Report(w, s, key).Some? ==> Report(w, s, key).value.rtt < INFINITY - LINK_PENALTY)
  }

  /** The row's next hop is still the cheapest under the new options: its own cost is
      moved without loss and stays below the others', or the link that changed
      offers nothing cheaper. */
  predicate StillBest(w: World, s: nat, opts: set<LinkOpt>, d: Dest)
    requires w.Valid() && s < MAX_SESSIONS
  {
    var e := Shifted(d, s, PenaltyMove(w.opts[s], opts));
    if d.via == s then
      d.rtt >= INFINITY ||
      (MoveIsExact(w, s, opts, d.key) && forall si :: 0 <= si < MAX_SESSIONS && si != s ==>
         CostHere(w, e.rtt, s) <= CostVia(w, si, d.key))
    else CostHere(w, d.rtt, d.via) <= CostVia(Reopted(w, s, opts), s, d.key)
  }

  lemma {:induction false} ReoptedOffers(w: World, s: nat, opts: set<LinkOpt>, key: Key, si: nat)
    requires w.Valid() && s < MAX_SESSIONS && si < MAX_SESSIONS
    ensures var v := Reopted(w, s, opts);
            && (si != s ==>
                  CostVia(v, si, key) == CostVia(w, si, key) && OfferedRtt(v, si, key) == OfferedRtt(w, si, key))
            && Report(v, si, key) == Report(w, si, key)
            && (CostVia(v, si, key) == INFINITY <==> CostVia(w, si, key) == INFINITY)
  {
  }

  lemma {:induction false} CostHereReopted(w: World, s: nat, opts: set<LinkOpt>, rtt: int, si: int)
    requires w.Valid() && s < MAX_SESSIONS
    ensures CostHere(Reopted(w, s, opts), rtt, si) == CostHere(w, rtt, si)
  {
  }

  /** The moved cost is what the link offers under its new options exactly when
      nothing was cut short; otherwise it is too low by what was cut. */
  lemma {:induction false} ShiftedCost(w: World, s: nat, opts: set<LinkOpt>, d: Dest)
    requires w.Valid() && s < MAX_SESSIONS && d.via == s && d.rtt < INFINITY && !d.isInf
    requires d.rtt == OfferedRtt(w, s, d.key)
    ensures var e := Shifted(d, s, PenaltyMove(w.opts[s], opts));
            var c := OfferedRtt(Reopted(w, s, opts), s, d.key);
            && 0 < e.rtt < INFINITY
            && (e.rtt == c <==> MoveIsExact(w, s, opts, d.key))
            && (!MoveIsExact(w, s, opts, d.key) ==> d.rtt == INFINITY - 1 && e.rtt == INFINITY - 1 - LINK_PENALTY < c)
  {
    ReoptedOffers(w, s, opts, d.key, s);
  }

  /** A link time is never as long as the penalty. */
  predicate ShortLink(w: World, s: nat)
    requires w.Valid() && s < MAX_SESSIONS
  {
    w.sessions[s].active && 0 <= w.sessions[s].linkTime < LINK_PENALTY
  }

  lemma {:induction false} ReoptedRow(w: World, s: nat, opts: set<LinkOpt>, d: Dest)
    requires w.Valid() && s < MAX_SESSIONS && ShortLink(w, s) && RowMinimal(w, d)
    ensures var v, e := Reopted(w, s, opts), Shifted(d, s, PenaltyMove(w.opts[s], opts));
            (RowMinimal(v, e) <==> StillBest(w, s, opts, d)) && (RowRecomputed(v, e) <==> StillBest(w, s, opts, d))
  {
    hide CostVia, OfferedRtt, MinCost, MoveIsExact;
    var v, e := Reopted(w, s, opts), Shifted(d, s, PenaltyMove(w.opts[s], opts));
    forall si | 0 <= si < MAX_SESSIONS
      ensures si != s ==>
                CostVia(v, si, d.key) == CostVia(w, si, d.key) && OfferedRtt(v, si, d.key) == OfferedRtt(w, si, d.key)
      ensures CostVia(v, si, d.key) == INFINITY <==> CostVia(w, si, d.key) == INFINITY
    {
      ReoptedOffers(w, s, opts, d.key, si);
    }
    CostHereReopted(w, s, opts, e.rtt, e.via);
    MinCostIsMinimum(w, d.key, MAX_SESSIONS);
    MinCostIsMinimum(v, d.key, MAX_SESSIONS);
    if d.rtt < INFINITY {
      FiniteRow(w, d);
      if d.via == s {
        ShiftedCost(w, s, opts, d);
        CostViaOffer(v, s, d.key);
      }
    }
    if RowMinimal(v, e) { InfiniteIffNoOffer(v, e); }
  }

  lemma {:induction false} CostViaOffer(w: World, s: nat, key: Key)
    requires w.Valid() && s < MAX_SESSIONS
    ensures CostVia(w, s, key) == CostHere(w, OfferedRtt(w, s, key), s)
  {
  }

  predicate OptsKeep(t: Tables, s: nat, opts: set<LinkOpt>)
    requires t.w.Valid() && s < MAX_SESSIONS
  {
    forall i :: 0 <= i < |t.dests| ==> StillBest(t.w, s, opts, t.dests[i])
  }

  lemma {:induction false} OptsKeepFrame(t: Tables, s: nat, opts: set<LinkOpt>)
    requires Framed(t) && s < MAX_SESSIONS
    ensures Framed(Reoptioned(t, s, opts))
  {
    hide Covered, DistinctRows;
    SameFrame(t, Reoptioned(t, s, opts));
  }

  /** A change of options keeps every row at the minimum exactly when every row passes
      that comparison. */
  lemma {:induction false} OptsKeepMinimal(t: Tables, s: nat, opts: set<LinkOpt>)
    requires Minimal(t) && s < MAX_SESSIONS && ShortLink(t.w, s)
    ensures var u := Reoptioned(t, s, opts);
            && Framed(u)
            && (AllMinimal(u) <==> OptsKeep(t, s, opts))
            && (Recomputed(u) <==> OptsKeep(t, s, opts))
  {
    hide RowMinimal, RowRecomputed, StillBest, DistinctRows, Covered, Shifted, PenaltyMove;
    var u := Reoptioned(t, s, opts);
    OptsKeepFrame(t, s, opts);
    forall i | 0 <= i < |t.dests|
      ensures RowMinimal(u.w, u.dests[i]) <==> StillBest(t.w, s, opts, t.dests[i])
      ensures RowRecomputed(u.w, u.dests[i]) <==> StillBest(t.w, s, opts, t.dests[i])
    {
      ReoptedRow(t.w, s, opts, t.dests[i]);
    }
  }
}
