/** What the node's tables keep besides minimal costs: no orphaned rows, the ports of
  * next hops, learned tables that move whole, the neighbour's own key, and local calls.
  */
module TableFacts {
  import opened Base
  import opened Text
  import opened World
  import opened DestTable
  import opened DestRuns
  import opened Advertise
  import opened ClimbGuard
  import opened Routing
  import opened Offers

  // ----- sessions that go

  /** Once a session is closed, with or without transit, no row is routed through it and
      no row is left finite without a next hop, whatever the rows were before. */
  lemma {:induction false} CloseLeavesNoOrphans(t: Tables, transit: bool, s: nat)
    requires t.w.Valid() && s < MAX_SESSIONS
    ensures var u := Close(t, transit, s);
            && |u.dests| == |t.dests|
            && forall i :: 0 <= i < |u.dests| ==>
                 && u.dests[i].key == t.dests[i].key && u.dests[i].via != s
                 && (u.dests[i].via < 0 ==> u.dests[i].rtt >= 60000)
  {
    hide CostVia, BestSource;
    var w := Closed(t.w, s);
    forall i | 0 <= i < |t.dests|
      ensures var d := Close(t, transit, s).dests[i];
              d.key == t.dests[i].key && d.via != s && (d.via < 0 ==> d.rtt >= 60000)
    {
      NotThroughClosed(w, s, t.dests[i]);
    }
  }

  lemma {:induction false} NotThroughClosed(w: World, s: nat, d: Dest)
    requires w.Valid() && s < MAX_SESSIONS && !w.sessions[s].active
    ensures BestSource(w, d.key, d.via, MAX_SESSIONS).0 != s
  {
    hide BestSource, CostVia;
    IdleOffersNothing(w, s, d.key);
  }

  // ----- ports of next hops

  /** A finite row's port is that of its next hop, which is up. */
  predicate PortsOk(t: Tables)
  {
    t.w.Valid() && forall i :: 0 <= i < |t.dests| && t.dests[i].rtt < 60000 ==> PortOk(t.w, t.dests[i])
  }

  predicate PortOk(w: World, d: Dest)
    requires w.Valid()
  {
    0 <= d.via < MAX_SESSIONS && w.sessions[d.via].active && d.port == w.sessions[d.via].port
  }

  lemma {:induction false} ReelectedPort(w: World, d: Dest)
    requires w.Valid()
    ensures Reelected(w, true, d).rtt < 60000 ==> PortOk(w, Reelected(w, true, d))
  {
    hide BestSource;
    var b := BestSource(w, d.key, d.via, MAX_SESSIONS);
    if b.0 >= 0 { CostNeedsSession(w, b.0, d.key); }
  }

  lemma {:induction false} CostNeedsSession(w: World, si: nat, key: Key)
    requires w.Valid() && si < MAX_SESSIONS && CostVia(w, si, key) < INFINITY
    ensures w.sessions[si].active
  {
  }

  lemma {:induction false} MergeKeepsPorts(t: Tables, ours: bool, r: Record, s: nat)
    requires PortsOk(t) && InSession(t, r, s)
    ensures PortsOk(Merge(t, true, ours, r, s).0)
  {
    hide Merge, Taught, Reelected, PortOk;
    if ours || r.rtt == 0 {
      IgnoredRecord(t, ours, r, s);
    } else {
      MergeRows(t, r, s);
      var u, i := Merge(t, true, false, r, s).0, FindDest(t.dests, r.key, 0);
      TaughtSessions(t.w, s, r);
      if i < |t.dests| {
        ReelectedPort(u.w, RowOf(t.w, s, r, t.dests[i].key));
        RowOfPort(t.w, s, r, t.dests[i].key, u.w);
      } else {
        RowOfPort(t.w, s, r, r.key, u.w);
      }
      forall k | 0 <= k < |u.dests| && u.dests[k].rtt < 60000 ensures PortOk(u.w, u.dests[k]) {
        if k < |t.dests| { SamePort(t.w, u.w, t.dests[k]); }
      }
    }
  }

  lemma {:induction false} TaughtSessions(w: World, s: nat, r: Record)
    requires w.Valid() && s < MAX_SESSIONS
    ensures Taught(w, s, r).sessions == w.sessions
  {
  }

  lemma {:induction false} RowOfPort(w: World, s: nat, r: Record, key: Key, v: World)
    requires w.Valid() && v.Valid() && s < MAX_SESSIONS && w.sessions[s].active && v.sessions == w.sessions
    ensures PortOk(v, RowOf(w, s, r, key))
  {
  }

  lemma {:induction false} SamePort(w: World, v: World, d: Dest)
    requires w.Valid() && v.Valid() && v.sessions == w.sessions
    ensures PortOk(v, d) <==> PortOk(w, d)
  {
  }

  /** Every event keeps it, whether or not rows stay minimal. */
  lemma {:induction false} EventKeepsPorts(t: Tables, e: Event)
    requires PortsOk(t) && Possible(t, e)
    ensures PortsOk(DestRuns.Step(t, e))
  {
    hide Merge, Reelected, Flagged;
    match e {
      case Merged(ours, r, s) => MergeKeepsPorts(t, ours, r, s);
      case SessionClosed(s) =>
        var u := Close(t, true, s);
        CloseLeavesNoOrphans(t, true, s);
        forall i | 0 <= i < |u.dests| && u.dests[i].rtt < 60000 ensures PortOk(u.w, u.dests[i]) {
          ReelectedPort(u.w, t.dests[i]);
          if !NeedsReelection(t.dests[i], s) { assert PortOk(t.w, t.dests[i]); }
        }
      case SessionOpened(s, session, opts, from) =>
      case LinkSampled(s, lt) =>
      case OptsChanged(s, opts) =>
      case NeighbourEntered(ours, s, gotInit, maxSsid) =>
        MergeKeepsPorts(t, ours, Record(NeighbourKey(t.w, s, gotInit, maxSsid), 1), s);
    }
  }

  // ----- learned tables

  /** A session starts with the very table its neighbour left, and that is then nowhere
      else; all other tables stay where they are. */
  lemma {:induction false} TablesMoveWhole(t: Tables, s: nat, session: Session, opts: set<LinkOpt>, from: Option<nat>)
    requires MayOpen(t, s, from)
    ensures var ls, ms := t.w.learned, Open(t, s, session, opts, from).w.learned;
            && (from.None? ==> ms[s] == [])
            && (from.Some? ==> ms[s] == ls[from.value] && (from.value != s ==> ms[from.value] == []))
            && (forall q :: 0 <= q < MAX_SESSIONS && q != s && from != Some(q) ==> ms[q] == ls[q])
  {
  }

  /** The destination is that of the row, case of the call ignored. */
  predicate Fits(d: Dest, key: Key) { SameText(d.key.call, key.call) && d.key.lo == key.lo && d.key.hi == key.hi }

  /** A record changes at most the first row of its call and SSID range, or adds one; the
      number it returns says which, and 0 that nothing has changed. */
  lemma {:induction false} MergeReports(t: Tables, transit: bool, ours: bool, r: Record, s: nat)
    requires t.w.Valid() && s < MAX_SESSIONS
    ensures var m := Merge(t, transit, ours, r, s); var ds, es := t.dests, m.0.dests;
            && 0 <= m.1 <= 2 && |ds| <= |es| <= |ds| + 1
            && (forall k :: 0 <= k < |ds| && es[k] != ds[k] ==>
                  Fits(ds[k], r.key) && forall j :: 0 <= j < k ==> !Fits(ds[j], r.key))
            && (m.1 == 0 ==> m.0 == t) && (m.1 == 1 <==> |es| == |ds| + 1)
            && (m.1 == 1 ==> es[|ds|].key == r.key && forall k :: 0 <= k < |ds| ==> !Fits(ds[k], r.key))
            && (m.1 == 2 <==> !ours && r.rtt != 0 && exists k :: 0 <= k < |ds| && Fits(ds[k], r.key))
  {
    hide Taught, CostHere, Reelected, OptsCost, SameText;
    FindDestIsFirst(t.dests, r.key, 0);
  }

  /** Without transit nothing is learned, and the record's row follows its next hop, or
      whoever offers it for strictly less seen from here. */
  lemma {:induction false} MergeWithoutTransit(t: Tables, r: Record, s: nat, k: nat)
    requires t.w.Valid() && s < MAX_SESSIONS && r.rtt != 0 && k < |t.dests| && Fits(t.dests[k], r.key)
    requires forall j :: 0 <= j < k ==> !Fits(t.dests[j], r.key)
    ensures var u, d := Merge(t, false, false, r, s).0, t.dests[k];
            var e := Dest(d.key, OptsCost(t.w.opts[s], r.rtt), r.rtt >= 60000, t.w.sessions[s].port, s);
            && u.w == t.w && |u.dests| == |t.dests|
            && u.dests[k] == if d.via == s || CostOf(t.w, e) < CostOf(t.w, d) then e else d
  {
    hide SameText, OptsCost;
    FindDestIsFirst(t.dests, r.key, 0);
  }

  predicate UniqueKeys(ls: seq<Learned>) { forall i, j :: 0 <= i < j < |ls| ==> ls[i].key != ls[j].key }

  /** A record leaves one entry per destination, at most 256 of them, and changes no other
      entry: the destination's own gets the new cost, or is added while there is room. */
  lemma {:induction false} LearnedStaysUnique(ls: seq<Learned>, r: Record)
    requires UniqueKeys(ls) && |ls| <= 256
    ensures var ms := LearnedWith(ls, r); var known := exists k :: 0 <= k < |ls| && ls[k].key == r.key;
            && UniqueKeys(ms) && |ls| <= |ms| <= 256
            && (forall k :: 0 <= k < |ls| ==>
                  ms[k] == if ls[k].key == r.key && r.key.call != "" then ls[k].(rtt := r.rtt) else ls[k])
            && (|ms| > |ls| <==> !known && r.key.call != "" && |ls| < 256)
            && (|ms| > |ls| ==> ms == ls + [Learned(r.key, r.rtt, false)])
  {
    IndexOfIsFirst(ls, r.key, 0);
    var i := IndexOf(ls, r.key, 0);
    if i < |ls| { assert ls[i].key == r.key; }
  }

  // ----- the neighbour's own entry

  /** A direct entry of the neighbour's call that starts at its SSID. */
  predicate LeftEntry(x: Learned, s: Session)
  {
    x.direct && x.key.call == s.base && x.key.lo == s.ssid <= x.key.hi
  }

  predicate FirstLeft(ls: seq<Learned>, k: int, s: Session)
  {
    0 <= k < |ls| && LeftEntry(ls[k], s) && forall j :: 0 <= j < k ==> !LeftEntry(ls[j], s)
  }

  lemma {:induction false} OwnEntryIsFirst(ls: seq<Learned>, s: Session, from: nat)
    requires from <= |ls|
    ensures var i := OwnEntry(ls, s.base, s.ssid, from);
            && (i < |ls| ==> LeftEntry(ls[i], s))
            && forall k :: from <= k < i ==> !LeftEntry(ls[k], s)
    decreases |ls| - from
  {
    if from < |ls| && !LeftEntry(ls[from], s) { OwnEntryIsFirst(ls, s, from + 1); }
  }

  /** The neighbour's entry is under its callsign and names its SSID: up to the highest one
      its INIT declares, or, without an INIT, as far as the first direct entry does that
      its last session left. So the node takes it for the neighbour's own. */
  lemma {:induction false} NeighbourKeyNames(w: World, s: nat, gotInit: bool, maxSsid: int)
    requires w.Valid() && s < MAX_SESSIONS
    ensures var x, key := w.sessions[s], NeighbourKey(w, s, gotInit, maxSsid);
            && key.call == x.base && key.lo == x.ssid <= key.hi
            && (gotInit ==> key.hi == x.ssid || key.hi == maxSsid) && (gotInit ==> key.hi >= maxSsid)
            && (!gotInit ==>
                  && (forall k :: FirstLeft(w.learned[s], k, x) ==> key == w.learned[s][k].key)
                  && ((forall k :: !FirstLeft(w.learned[s], k, x)) ==> key.hi == x.ssid))
            && (x.active && x.linked && x.base != "" ==> NamesPeer(w, s, key))
  {
    hide SameText;
    var ls, x := w.learned[s], w.sessions[s];
    OwnEntryIsFirst(ls, x, 0);
    var i := OwnEntry(ls, x.base, x.ssid, 0);
    if i < |ls| { assert FirstLeft(ls, i, x); }
    SameTextReflexive(x.base);
  }

  lemma {:induction false} SameTextReflexive(s: string)
    ensures SameText(s, s)
  {
  }

  // ----- walks and local calls

  /** A walk for `p` visits exactly what other active sessions have taught, all of it or
      what is marked as a direct neighbour's. */
  lemma {:induction false} WalkVisits(w: World, p: nat, directOnly: bool, n: nat, key: Key)
    requires w.Valid() && n <= MAX_SESSIONS
    ensures key in Visits(w, p, directOnly, n) <==>
            exists si, k :: 0 <= si < n && si != p && w.sessions[si].active && 0 <= k < |w.learned[si]| &&
              Visited(w, si, k, key, directOnly)
  {
    hide Rows;
    if n > 0 {
      WalkVisits(w, p, directOnly, n - 1, key);
      RowsAre(w.learned[n - 1], directOnly, |w.learned[n - 1]|, key);
      var ls := w.learned[n - 1];
      if k :| 0 <= k < |ls| && Row(ls, k, key, directOnly) {
        assert Visited(w, n - 1, k, key, directOnly);
      }
    }
  }

  predicate Row(ls: seq<Learned>, k: int, key: Key, directOnly: bool)
    requires 0 <= k < |ls|
  {
    ls[k].key == key && key.call != "" && (directOnly ==> ls[k].direct)
  }

  predicate Visited(w: World, si: int, k: int, key: Key, directOnly: bool)
    requires w.Valid() && 0 <= si < MAX_SESSIONS && 0 <= k < |w.learned[si]|
  {
    Row(w.learned[si], k, key, directOnly)
  }

  lemma {:induction false} RowsAre(ls: seq<Learned>, directOnly: bool, n: nat, key: Key)
    requires n <= |ls|
    ensures key in Rows(ls, directOnly, n) <==> exists k :: 0 <= k < n && Row(ls, k, key, directOnly)
  {
    if n > 0 {
      RowsAre(ls, directOnly, n - 1, key);
      if Row(ls, n - 1, key, directOnly) { assert key in Rows(ls, directOnly, n); }
    }
  }

  /** The destination takes in a local call of ours. */
  predicate NamesLocal(locals: seq<LocalCall>, key: Key)
  {
    exists i :: 0 <= i < |locals| && SameText(locals[i].base, key.call) && key.lo <= locals[i].ssid <= key.hi
  }

  /** A record that takes in one of our local calls teaches nothing and makes no row; any
      other one with a cost and a call is learned, while there is room in both tables. */
  lemma {:induction false} LocalsAreNotLearned(t: Tables, locals: seq<LocalCall>, r: Record, s: nat)
    requires t.w.Valid() && s < MAX_SESSIONS
    ensures var u := Merge(t, true, Covers(locals, r.key), r, s).0;
            && (NamesLocal(locals, r.key) ==> u == t)
            && (!NamesLocal(locals, r.key) && r.rtt != 0 && Teaches(t.w, s, r) &&
                  (FindDest(t.dests, r.key, 0) < |t.dests| || |t.dests| < 2000) ==>
                  && FindDest(u.dests, r.key, 0) < |u.dests|
                  && var i := IndexOf(u.w.learned[s], r.key, 0);
                     i < |u.w.learned[s]| && u.w.learned[s][i].rtt == r.rtt)
  {
    hide Merge, SameText;
    LocalsCovered(locals, r.key);
    if Covers(locals, r.key) || r.rtt == 0 {
      IgnoredRecord(t, Covers(locals, r.key), r, s);
    } else {
      MergeRows(t, r, s);
      var u, i := Merge(t, true, false, r, s).0, FindDest(t.dests, r.key, 0);
      if i < |t.dests| || |t.dests| < MAX_DESTS {
        if Teaches(t.w, s, r) { IndexOfLearned(t.w.learned[s], r, r.key); }
        SameKeyReflexive(r.key);
        FindDestIsFirst(u.dests, r.key, 0);
        assert SameKey(u.dests[i].key, r.key);
      }
    }
  }

  lemma {:induction false} LocalsCovered(locals: seq<LocalCall>, key: Key)
    ensures Covers(locals, key) <==> NamesLocal(locals, key)
  {
    hide SameText;
    if i :| 0 <= i < |locals| && CoveredBy(locals[i], key) { assert SameText(locals[i].base, key.call); }
    if i :| 0 <= i < |locals| && SameText(locals[i].base, key.call) && key.lo <= locals[i].ssid <= key.hi {
      assert CoveredBy(locals[i], key);
    }
  }

  // ----- the penalty and the climb guard

  /** The climb guard judges costs without the '+' penalty: moving a destination on or
      off a penalised link, for which it was told a cost, changes neither its verdict nor
      its memory. */
  lemma {:induction false} PenaltyIsNotJudged(a: Adv, b: Adv, c: Case, d: Case)
    requires a.guard == b.guard && Told(Some(a)) && Told(Some(b)) && a.last - a.lastPen == b.last - b.lastPen
    requires c.best.cost < 60000 && d.best.cost < 60000 && 0 <= c.best.cost && 0 <= d.best.cost
    requires c.best.cost - c.best.pen == d.best.cost - d.best.pen && !c.best.direct && !d.best.direct
    ensures VerdictOn(a, c) == VerdictOn(b, d)
    ensures Judged(a, c.best.cost, c).guard == Judged(b, d.best.cost, d).guard
  {
    hide Judge, Fires;
  }
}
