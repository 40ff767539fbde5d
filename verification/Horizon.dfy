/** Split horizon per destination, the '=' option and the narrow scope, on the node's
  * tables: what a check of one destination for one neighbour may queue there.
  */
module Horizon {
  import opened Base
  import opened World
  import opened Advertise
  import opened Peers
  import opened Routing
  import opened Offers

  predicate TaughtBy(w: World, p: nat, key: Key)
    requires w.Valid() && p < MAX_SESSIONS
  {
    exists k :: 0 <= k < |w.learned[p]| && w.learned[p][k].key == key
  }

  /** The destination is the call of some neighbour of ours. */
  predicate SomePeers(w: World, key: Key)
    requires w.Valid()
  {
    exists si :: 0 <= si < MAX_SESSIONS && NamesPeer(w, si, key)
  }

  /** Neighbour `p` taught us the destination, and it is no neighbour's own; or only
      direct neighbours are announced, and it is not offered as one. */
  predicate HeldFrom(cfg: NodeConfig, w: World, p: nat, key: Key)
    requires w.Valid() && p < MAX_SESSIONS
  {
    || (TaughtBy(w, p, key) && !SomePeers(w, key))
    || (cfg.directOnly && !Expected(w, cfg.crossport, p, key).direct)
  }

  /** A route may be told to `p`: there is one, the link has no '=', and the destination
      is not held from it. */
  predicate MayTell(cfg: NodeConfig, w: World, p: nat, key: Key)
    requires w.Valid() && p < MAX_SESSIONS
  {
    Expected(w, cfg.crossport, p, key).src >= 0 && OwnOnly !in w.opts[p] && !HeldFrom(cfg, w, p, key)
  }

  /** The check gets as far as the decision rule. */
  predicate Decides(cfg: NodeConfig, w: World, p: nat, peer: Peer, key: Key)
    requires w.Valid() && p < MAX_SESSIONS
  {
    w.sessions[p].active && w.sessions[p].linked && MayCheck(cfg.peer, peer, key)
  }

  lemma {:induction false} CaseFromTables(cfg: NodeConfig, w: World, p: nat, key: Key, force: bool, now: int)
    requires w.Valid() && p < MAX_SESSIONS
    ensures var c := CaseFor(cfg, w, p, key, force, now);
            && (Barred(c) <==> OwnOnly in w.opts[p] || HeldFrom(cfg, w, p, key))
            && (Offerable(c) <==> MayTell(cfg, w, p, key))
            && (c.ownOnly <==> OwnOnly in w.opts[p])
            && c.force == force && c.now == now && c.best == Expected(w, cfg.crossport, p, key)
  {
    hide IsSessionPeer, NamesPeer, Expected;
    IndexOfIsFirst(w.learned[p], key, 0);
    forall si | 0 <= si < MAX_SESSIONS ensures IsSessionPeer(w, si, key) <==> NamesPeer(w, si, key) {
      PeerNamed(w, si, key);
    }
  }

  lemma {:induction false} ConsideredIsChecked(cfg: NodeConfig, w: World, p: nat, peer: Peer, key: Key, force: bool,
                                               now: int)
    requires w.Valid() && p < MAX_SESSIONS && AllOk(peer.account.q.advs) && KeyOk(key)
    ensures Considered(cfg, w, p, peer, key, force, now).account.q.advs ==
            if Decides(cfg, w, p, peer, key)
            then Checked(peer.account.q.advs, key, CaseFor(cfg, w, p, key, force, now)) else peer.account.q.advs
  {
    hide AllOk, CaseFor, Checked, MayCheck;
  }

  /** The entry a check leaves, from the entry before. */
  lemma {:induction false} CheckedEntry(advs: seq<Adv>, key: Key, c: Case)
    requires AllOk(advs) && KeyOk(key) && Sound(c)
    ensures var e, r := EntryOf(advs, key), EntryOf(Checked(advs, key, c), key); var d := Decide(e, key, c);
            r == if d.None? then e else if e.Some? || |advs| < MAX_ADVERTISED then d else None
  {
    hide Decide, AdvOk, Sound;
    var r := Checked(advs, key, c);
    AdvIndexIsFirst(advs, key, 0);
    AdvIndexIsFirst(r, key, 0);
    CheckedOk(advs, key, c);
    DecidedKey(advs, key, c);
    var i := AdvIndex(advs, key, 0);
    if i < |r| && r[i].key == key { EntryFound(r, key, i); }
  }

  lemma {:induction false} DecidedKey(advs: seq<Adv>, key: Key, c: Case)
    requires AllOk(advs) && KeyOk(key) && Sound(c)
    ensures var d := Decide(EntryOf(advs, key), key, c); d.Some? ==> d.value.key == key
  {
    hide Decide;
    if EntryOf(advs, key).Some? { var i := EntryIndex(advs, key); }
    DecideOk(EntryOf(advs, key), key, c);
  }

  /** A cost that was told and may not be any more. */
  predicate Retracted(a: Adv, b: Adv, force: bool)
  {
    && (b.pending <==> a.pending || force || a.last <= 54546)
    && (b.pending ==> b.pendingRtt == 60000) && b.last == a.last && b.lastAt == a.lastAt
  }

  lemma {:induction false} BarredEntry(e: Option<Adv>, key: Key, c: Case)
    requires Sound(c) && Barred(c) && (e.Some? ==> AdvOk(e.value) && e.value.key == key)
    ensures var d := Decide(e, key, c);
            if Told(e) then d.Some? && Retracted(e.value, d.value, c.force)
            else d == if c.ownOnly && e.Some? then Some(e.value.(pending := false)) else None
  {
  }

  /** A neighbour's own routes are not told back to it, nor routes beyond our
      neighbours in the narrow scope: a check queues no cost for them that was not
      queued before, and replaces a cost it was told by the withdrawal. */
  lemma {:induction false} HeldRoutesAreNotTold(cfg: NodeConfig, w: World, p: nat, peer: Peer, key: Key, force: bool,
                                                now: int)
    requires w.Valid() && p < MAX_SESSIONS && AllOk(peer.account.q.advs) && KeyOk(key)
    requires OwnOnly !in w.opts[p] && HeldFrom(cfg, w, p, key)
    ensures var e := EntryOf(peer.account.q.advs, key);
            var r := EntryOf(Considered(cfg, w, p, peer, key, force, now).account.q.advs, key);
            if Decides(cfg, w, p, peer, key) && Told(e) then r.Some? && Retracted(e.value, r.value, force) else r == e
  {
    hide Considered, Decide, Checked, AdvOk, HeldFrom, Retracted, CaseFor, MayCheck;
    var c := CaseFor(cfg, w, p, key, force, now);
    ConsideredIsChecked(cfg, w, p, peer, key, force, now);
    CaseFromTables(cfg, w, p, key, force, now);
    CheckedEntry(peer.account.q.advs, key, c);
    TableEntryOk(peer.account.q.advs, key);
    BarredEntry(EntryOf(peer.account.q.advs, key), key, c);
  }

  lemma {:induction false} TableEntryOk(advs: seq<Adv>, key: Key)
    requires AllOk(advs)
    ensures EntryOf(advs, key).Some? ==> AdvOk(EntryOf(advs, key).value) && EntryOf(advs, key).value.key == key
  {
  }

  /** On a '=' link every cost that was told is withdrawn, and none is left queued. */
  lemma {:induction false} OwnOnlyTellsNothing(cfg: NodeConfig, w: World, p: nat, peer: Peer, key: Key, force: bool,
                                               now: int)
    requires w.Valid() && p < MAX_SESSIONS && AllOk(peer.account.q.advs) && KeyOk(key)
    requires OwnOnly in w.opts[p] && Decides(cfg, w, p, peer, key)
    ensures var e := EntryOf(peer.account.q.advs, key);
            var r := EntryOf(Considered(cfg, w, p, peer, key, force, now).account.q.advs, key);
            if e.None? then r == None
            else if Told(e) then r.Some? && Retracted(e.value, r.value, force)
            else r == Some(e.value.(pending := false))
  {
    hide Considered, Decide, Checked, AdvOk, HeldFrom, Retracted, CaseFor, MayCheck;
    var c := CaseFor(cfg, w, p, key, force, now);
    ConsideredIsChecked(cfg, w, p, peer, key, force, now);
    CaseFromTables(cfg, w, p, key, force, now);
    CheckedEntry(peer.account.q.advs, key, c);
    TableEntryOk(peer.account.q.advs, key);
    BarredEntry(EntryOf(peer.account.q.advs, key), key, c);
  }

  /** A destination that is some neighbour's own is decided for `p` without regard to
      what `p` has taught: put any table in place of its own. */
  lemma {:induction false} NeighboursAreNoEcho(cfg: NodeConfig, w: World, p: nat, peer: Peer, key: Key, force: bool,
                                               now: int, table: seq<Learned>)
    requires w.Valid() && p < MAX_SESSIONS && AllOk(peer.account.q.advs) && KeyOk(key) && SomePeers(w, key)
    ensures Considered(cfg, w.(learned := w.learned[p := table]), p, peer, key, force, now) ==
            Considered(cfg, w, p, peer, key, force, now)
  {
    hide CheckPeer, Expected, AllOk;
    var v := w.(learned := w.learned[p := table]);
    ExpectedIgnoresPeersTable(w, cfg.crossport, p, key, table);
    var si :| 0 <= si < MAX_SESSIONS && NamesPeer(w, si, key);
    PeerNamed(w, si, key);
    PeerNamed(v, si, key);
    assert IsOurPeer(w, key) && IsOurPeer(v, key);
  }

  /** What may be told is told: a forced check of it leaves a record queued exactly if
      it is not held down and has an entry or room for one. */
  lemma {:induction false} RoutesAreTold(cfg: NodeConfig, w: World, p: nat, peer: Peer, key: Key, now: int)
    requires w.Valid() && p < MAX_SESSIONS && AllOk(peer.account.q.advs) && KeyOk(key)
    requires MayTell(cfg, w, p, key) && Decides(cfg, w, p, peer, key)
    ensures var advs := peer.account.q.advs; var e := EntryOf(advs, key);
            var held := e.Some? && e.value.last >= 60000 && !Expected(w, cfg.crossport, p, key).direct &&
              now - e.value.lastAt < 90;
            RecordQueued(Considered(cfg, w, p, peer, key, true, now).account.q.advs, key) <==>
              !held && (e.Some? || |advs| < 256)
  {
    hide Considered, Checked, AdvOk, CaseFor, MayTell, MayCheck;
    var c := CaseFor(cfg, w, p, key, true, now);
    ConsideredIsChecked(cfg, w, p, peer, key, true, now);
    CaseFromTables(cfg, w, p, key, true, now);
    ForcedIsQueued(peer.account.q.advs, key, c);
  }
}
