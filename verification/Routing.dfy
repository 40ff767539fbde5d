/** The node's view that feeds the neighbours' tables: which destinations a walk
  * visits, what the decision rule sees of each, and what losing a session does.
  */
module Routing {
  import opened Base
  import opened Text
  import opened World
  import opened Advertise
  import opened Drain
  import opened Peers
  import opened PeerRuns

  /** A call of ours besides the node's own, advertised at cost 1. */
  datatype LocalCall = LocalCall(base: string, ssid: int)

  datatype NodeConfig = NodeConfig(peer: Config, crossport: bool, directOnly: bool, locals: seq<LocalCall>)

  /** flex_local_covers */
  predicate Covers(locals: seq<LocalCall>, key: Key)
  {
    exists i :: 0 <= i < |locals| && CoveredBy(locals[i], key)
  }

  predicate CoveredBy(c: LocalCall, key: Key) { key.lo <= c.ssid <= key.hi && SameText(c.base, key.call) }

  /** What flex_advertise_check finds out about `key` before it decides for `p`. */
  function CaseFor(cfg: NodeConfig, w: World, p: nat, key: Key, force: bool, now: int): (c: Case)
    requires w.Valid() && p < MAX_SESSIONS
    ensures Sound(c) && c.now == now
  {
    Case(Expected(w, cfg.crossport, p, key), OwnOnly in w.opts[p], Knows(w.learned[p], key) && !IsOurPeer(w, key),
         cfg.directOnly, force, now)
  }

  /** Keys of the first `n` learned entries, all or the direct ones. */
  function Rows(ls: seq<Learned>, directOnly: bool, n: nat): seq<Key>
    requires n <= |ls|
  {
    if n == 0 then []
    else
      Rows(ls, directOnly, n - 1) +
      (if ls[n - 1].key.call != "" && (directOnly ==> ls[n - 1].direct) then [ls[n - 1].key] else [])
  }

  /** Destinations a walk for `p` visits, over the first `n` sessions. */
  function Visits(w: World, p: nat, directOnly: bool, n: nat): seq<Key>
    requires w.Valid() && n <= MAX_SESSIONS
  {
    if n == 0 then []
    else
      Visits(w, p, directOnly, n - 1)
      + (if n - 1 != p && w.sessions[n - 1].active then Rows(w.learned[n - 1], directOnly, |w.learned[n - 1]|) else [])
  }

  function Cases(cfg: NodeConfig, w: World, p: nat, keys: seq<Key>, force: bool, now: int): (r: Walk)
    requires w.Valid() && p < MAX_SESSIONS
    ensures |r| == |keys| && forall i :: 0 <= i < |keys| ==> r[i] == (keys[i], CaseFor(cfg, w, p, keys[i], force, now))
  {
    seq(|keys|, i requires 0 <= i < |keys| => (keys[i], CaseFor(cfg, w, p, keys[i], force, now)))
  }

  /** SSIDs as the record reader delivers them. */
  predicate KeysOk(w: World)
    requires w.Valid()
  {
    forall s, k :: 0 <= s < MAX_SESSIONS && 0 <= k < |w.learned[s]| ==> KeyOk(w.learned[s][k].key)
  }

  predicate AllKeysOk(keys: seq<Key>) { forall i :: 0 <= i < |keys| ==> KeyOk(keys[i]) }

  lemma {:induction false} RowsOk(ls: seq<Learned>, directOnly: bool, n: nat)
    requires n <= |ls| && forall k :: 0 <= k < |ls| ==> KeyOk(ls[k].key)
    ensures AllKeysOk(Rows(ls, directOnly, n))
  {
    if n > 0 { RowsOk(ls, directOnly, n - 1); }
  }

  lemma {:induction false} VisitsOk(w: World, p: nat, directOnly: bool, n: nat)
    requires w.Valid() && KeysOk(w) && n <= MAX_SESSIONS
    ensures AllKeysOk(Visits(w, p, directOnly, n))
  {
    hide KeyOk;
    if n > 0 {
      VisitsOk(w, p, directOnly, n - 1);
      RowsOk(w.learned[n - 1], directOnly, |w.learned[n - 1]|);
    }
  }

  lemma {:induction false} CasesOk(cfg: NodeConfig, w: World, p: nat, keys: seq<Key>, force: bool, now: int)
    requires w.Valid() && p < MAX_SESSIONS && AllKeysOk(keys)
    ensures WalkOk(Cases(cfg, w, p, keys, force, now), now)
  {
    hide Sound, KeyOk;
    forall i | 0 <= i < |keys| ensures Sound(CaseFor(cfg, w, p, keys[i], force, now)) {
      var c := CaseFor(cfg, w, p, keys[i], force, now);
    }
  }

  lemma {:induction false} RowsContain(ls: seq<Learned>, directOnly: bool, n: nat, k: nat)
    requires k < n <= |ls| && ls[k].key.call != "" && (directOnly ==> ls[k].direct)
    ensures exists i :: 0 <= i < |Rows(ls, directOnly, n)| && Rows(ls, directOnly, n)[i] == ls[k].key
  {
    var rest := Rows(ls, directOnly, n - 1);
    if k < n - 1 {
      RowsContain(ls, directOnly, n - 1, k);
      var i :| 0 <= i < |rest| && rest[i] == ls[k].key;
      assert Rows(ls, directOnly, n)[i] == ls[k].key;
    } else {
      assert Rows(ls, directOnly, n)[|rest|] == ls[k].key;
    }
  }

  // ----- losing a session

  /** Neighbour `p` after the destinations `keys` have been decided for it in turn. */
  function Walked(cfg: NodeConfig, w: World, p: nat, peer: Peer, keys: seq<Key>, force: bool, now: int): (r: (Peer,
                  bool))
    requires w.Valid() && p < MAX_SESSIONS && AllKeysOk(keys) && AllOk(peer.account.q.advs)
    ensures AllOk(r.0.account.q.advs)
  {
    CasesOk(cfg, w, p, keys, force, now);
    if !w.sessions[p].active || !w.sessions[p].linked then (peer, false)
    else CheckAll(cfg.peer, peer, Cases(cfg, w, p, keys, force, now), now)
  }

  /** One decision about `key` for neighbour `p`. */
  function Considered(cfg: NodeConfig, w: World, p: nat, peer: Peer, key: Key, force: bool, now: int): (r: Peer)
    requires w.Valid() && p < MAX_SESSIONS && AllOk(peer.account.q.advs) && KeyOk(key)
    ensures AllOk(r.account.q.advs)
  {
    if !w.sessions[p].active || !w.sessions[p].linked then peer
    else CheckPeer(cfg.peer, peer, key, CaseFor(cfg, w, p, key, force, now))
  }

  function Emptied(cfg: NodeConfig, w: World, p: nat, peer: Peer, now: int): (r: Peer)
    requires w.Valid() && p < MAX_SESSIONS && AllOk(peer.account.q.advs)
    ensures AllOk(r.account.q.advs)
  {
    if !w.sessions[p].active || !w.sessions[p].linked then peer else DrainPeer(cfg.peer, peer, now)
  }

  /** One change decided for neighbour `p` and its queue drained. */
  function Informed(cfg: NodeConfig, w: World, p: nat, peer: Peer, key: Key, now: int): Peer
    requires w.Valid() && p < MAX_SESSIONS && AllOk(peer.account.q.advs) && KeyOk(key)
  {
    Emptied(cfg, w, p, Considered(cfg, w, p, peer, key, false, now), now)
  }

  lemma {:induction false} WalkedSnoc(cfg: NodeConfig, w: World, p: nat, peer: Peer, keys: seq<Key>, key: Key,
                                      force: bool, now: int)
    requires w.Valid() && p < MAX_SESSIONS && AllKeysOk(keys) && KeyOk(key) && AllOk(peer.account.q.advs)
    ensures AllKeysOk(keys + [key])
    ensures var b := Walked(cfg, w, p, peer, keys, force, now);
            var r := Walked(cfg, w, p, peer, keys + [key], force, now);
            && r.0 == Considered(cfg, w, p, b.0, key, force, now)
            && r.1 == (b.1 || (IsQueued(r.0, key) && !IsQueued(b.0, key)))
  {
    hide AllOk, KeyOk, IsQueued, CheckPeer, CaseFor;
    var walk := Cases(cfg, w, p, keys + [key], force, now);
    CasesOk(cfg, w, p, keys, force, now);
    CasesOk(cfg, w, p, keys + [key], force, now);
    assert walk[..|keys|] == Cases(cfg, w, p, keys, force, now);
    assert walk[|keys|] == (key, CaseFor(cfg, w, p, key, force, now));
  }

  lemma {:induction false} WalkedNothing(cfg: NodeConfig, w: World, p: nat, peer: Peer, force: bool, now: int)
    requires w.Valid() && p < MAX_SESSIONS && AllOk(peer.account.q.advs)
    ensures Walked(cfg, w, p, peer, [], force, now) == (peer, false)
  {
  }

  /** What flex_advertise_poison_session does to neighbour `p` once session `dead` is
      down: every destination learned there is decided again, then the queue is
      drained. A link time that moves and link options that change do the same for a
      session that is up. */
  function Poisoned(cfg: NodeConfig, w: World, dead: nat, p: nat, peer: Peer, now: int): Peer
    requires w.Valid() && KeysOk(w) && dead < MAX_SESSIONS && p < MAX_SESSIONS && AllOk(peer.account.q.advs)
  {
    RowsOk(w.learned[dead], false, |w.learned[dead]|);
    if !cfg.peer.transit then peer
    else Emptied(cfg, w, p, Walked(cfg, w, p, peer, Rows(w.learned[dead], false, |w.learned[dead]|), false, now).0, now)
  }

  /** The entry for `key` after the peer was told a finite cost that a withdrawal
      stands out against. */
  predicate ToldAt(advs: seq<Adv>, key: Key, most: int)
  {
    EntryOf(advs, key).Some? && var a := EntryOf(advs, key).value; 0 <= a.last <= most
  }

  predicate WithdrawalWaiting(advs: seq<Adv>, key: Key)
  {
    EntryOf(advs, key).Some? && var a := EntryOf(advs, key).value; a.pending && a.pendingRtt == INFINITY
  }

  predicate WithdrawalSent(advs: seq<Adv>, key: Key)
  {
    EntryOf(advs, key).Some? && EntryOf(advs, key).value.last == INFINITY
  }

  /** A decision about `key` queues its withdrawal when nobody offers it any more. */
  lemma {:induction false} CheckWithdraws(advs: seq<Adv>, key: Key, c: Case)
    requires AllOk(advs) && Sound(c) && KeyOk(key) && c.best.src == -1 && ToldAt(advs, key, 54546)
    ensures WithdrawalWaiting(Checked(advs, key, c), key) && ToldAt(Checked(advs, key, c), key, 54546)
  {
    hide Decide, Sound, KeyOk;
    var i := EntryIndex(advs, key);
    CheckedOk(advs, key, c);
    EntryOk(advs, i);
    LostSourceIsWithdrawn(advs[i], key, c);
    EntryFound(Checked(advs, key, c), key, i);
  }

  lemma {:induction false} WalkWithdraws(cfg: Config, p: Peer, walk: Walk, now: int, key: Key)
    requires AllOk(p.account.q.advs) && WalkOk(walk, now)
    requires cfg.transit && Allowed(cfg, p) && key.call != "" && !IsOurs(cfg.own, key)
    requires ToldAt(p.account.q.advs, key, 54546)
    requires forall i :: 0 <= i < |walk| && walk[i].0 == key ==> walk[i].1.best.src == -1
    ensures var r := CheckAll(cfg, p, walk, now).0;
            && Allowed(cfg, r) && ToldAt(r.account.q.advs, key, 54546)
            && ((exists i :: 0 <= i < |walk| && walk[i].0 == key) ==> WithdrawalWaiting(r.account.q.advs, key))
    decreases |walk|
  {
    hide AllOk, Sound, KeyOk, Checked, EntryOf, IsOurs;
    if walk != [] {
      var n := |walk| - 1;
      WalkWithdraws(cfg, p, walk[..n], now, key);
      var b := CheckAll(cfg, p, walk[..n], now).0;
      if walk[n].0 == key {
        CheckWithdraws(b.account.q.advs, key, walk[n].1);
      } else {
        ToldHasEntry(b.account.q.advs, key);
        CheckElsewhere(b.account.q.advs, walk[n].0, walk[n].1, key);
        if i :| 0 <= i < |walk| && walk[i].0 == key {
          assert walk[..n][i].0 == key;
        }
      }
    }
  }

  lemma {:induction false} ToldHasEntry(advs: seq<Adv>, key: Key)
    requires ToldAt(advs, key, 54546)
    ensures EntryOf(advs, key).Some?
  {
  }

  /** A drain sends a waiting withdrawal or leaves it waiting. */
  lemma {:induction false} DrainKeepsWithdrawal(cfg: Config, p: Peer, now: int, key: Key)
    requires AllOk(p.account.q.advs) && WithdrawalWaiting(p.account.q.advs, key)
    ensures var advs := DrainPeer(cfg, p, now).account.q.advs; WithdrawalWaiting(advs, key) || WithdrawalSent(advs, key)
  {
    hide AllOk, DrainOnce, Reached;
    if cfg.transit {
      var advs := p.account.q.advs;
      var i := EntryIndex(advs, key);
      var closed, pcf := !Allowed(cfg, p), p.Pcf();
      DrainKeepsEntries(p.account.q, closed, pcf, now);
      var n := Reached(p.account.q, closed, pcf, now);
      EntryFound(Emitted(advs, n, now), key, i);
    }
  }

  /** Withdrawal completeness on session loss: every active neighbour that may be
      sent records and was told a finite cost of at most 54546 for a destination
      learned from the lost session has its withdrawal queued or sent when nobody is
      left to offer the destination to it. Costs on the wire go up to 4095. */
  lemma {:induction false} LossIsAnnounced(cfg: NodeConfig, w: World, dead: nat, p: nat, peer: Peer, now: int, k: nat)
    requires w.Valid() && KeysOk(w) && dead < MAX_SESSIONS && p < MAX_SESSIONS && p != dead &&
             AllOk(peer.account.q.advs)
    requires cfg.peer.transit && w.sessions[p].active && w.sessions[p].linked && Allowed(cfg.peer, peer)
    requires k < |w.learned[dead]|
    requires var key := w.learned[dead][k].key;
             && key.call != "" && !IsOurs(cfg.peer.own, key)
             && Expected(w, cfg.crossport, p, key).src == -1
             && ToldAt(peer.account.q.advs, key, 54546)
    ensures var key, advs := w.learned[dead][k].key, Poisoned(cfg, w, dead, p, peer, now).account.q.advs;
            WithdrawalWaiting(advs, key) || WithdrawalSent(advs, key)
  {
    hide AllOk, EntryOf, Expected, KeysOk, IsOurPeer, Knows, DrainPeer, IsOurs;
    var key := w.learned[dead][k].key;
    var n := |w.learned[dead]|;
    var keys := Rows(w.learned[dead], false, n);
    LearnedKeysOk(w, dead);
    RowsOk(w.learned[dead], false, n);
    CasesOk(cfg, w, p, keys, false, now);
    RowsContain(w.learned[dead], false, n, k);
    var walk := Cases(cfg, w, p, keys, false, now);
    var i :| 0 <= i < |keys| && keys[i] == key;
    assert walk[i].0 == key;
    WalkWithdraws(cfg.peer, peer, walk, now, key);
    DrainKeepsWithdrawal(cfg.peer, CheckAll(cfg.peer, peer, walk, now).0, now, key);
  }

  lemma {:induction false} LearnedKeysOk(w: World, s: nat)
    requires w.Valid() && KeysOk(w) && s < MAX_SESSIONS
    ensures forall k :: 0 <= k < |w.learned[s]| ==> KeyOk(w.learned[s][k].key)
  {
  }

  /** And it is announced to nobody else: a neighbour that was not told a finite cost
      gets no withdrawal queued for a destination nobody offers any more. */
  lemma {:induction false} LossIsNotNoise(advs: seq<Adv>, key: Key, c: Case)
    requires AllOk(advs) && Sound(c) && KeyOk(key) && c.best.src == -1 && !Told(EntryOf(advs, key))
    requires !WithdrawalWaiting(advs, key)
    ensures !WithdrawalWaiting(Checked(advs, key, c), key)
  {
    hide Decide;
    CheckedOk(advs, key, c);
    UntoldIsLeftAlone(EntryOf(advs, key), key, c);
    if EntryOf(advs, key).Some? {
      var i := EntryIndex(advs, key);
      EntryFound(Checked(advs, key, c), key, i);
    }
  }

  /** Losing a session is an ordinary change event for every other neighbour, so all
      that holds of whole sessions holds across it. */
  lemma {:induction false} LossIsAChange(cfg: NodeConfig, w: World, dead: nat, p: nat, peer: Peer, now: int)
    requires w.Valid() && KeysOk(w) && dead < MAX_SESSIONS && p < MAX_SESSIONS && p != dead &&
             AllOk(peer.account.q.advs)
    ensures Poisoned(cfg, w, dead, p, peer, now) == peer ||
            exists walk: Walk ::
              WalkOk(walk, now) && Poisoned(cfg, w, dead, p, peer, now) == Step(cfg.peer, peer, Changed(walk, now))
  {
    hide DrainPeer, CheckAll, AllOk, KeyOk, CaseFor;
    if cfg.peer.transit && w.sessions[p].active && w.sessions[p].linked {
      LearnedKeysOk(w, dead);
      var keys := Rows(w.learned[dead], false, |w.learned[dead]|);
      RowsOk(w.learned[dead], false, |w.learned[dead]|);
      CasesOk(cfg, w, p, keys, false, now);
      var walk := Cases(cfg, w, p, keys, false, now);
      assert WalkOk(walk, now) && Poisoned(cfg, w, dead, p, peer, now) == Step(cfg.peer, peer, Changed(walk, now));
    }
  }

  /** So is a record from another neighbour. */
  lemma {:induction false} NewsIsAChange(cfg: NodeConfig, w: World, p: nat, peer: Peer, key: Key, now: int)
    requires w.Valid() && p < MAX_SESSIONS && KeyOk(key) && AllOk(peer.account.q.advs)
    ensures Informed(cfg, w, p, peer, key, now) == peer ||
            exists walk: Walk ::
              WalkOk(walk, now) && Informed(cfg, w, p, peer, key, now) == Step(cfg.peer, peer, Changed(walk, now))
  {
    hide DrainPeer, CheckAll, AllOk, CaseFor;
    if w.sessions[p].active && w.sessions[p].linked {
      var walk := Cases(cfg, w, p, [key], false, now);
      CasesOk(cfg, w, p, [key], false, now);
      OneCheck(cfg.peer, peer, walk, now);
      assert WalkOk(walk, now) && Informed(cfg, w, p, peer, key, now) == Step(cfg.peer, peer, Changed(walk, now));
    }
  }

  lemma {:induction false} OneCheck(cfg: Config, p: Peer, walk: Walk, now: int)
    requires AllOk(p.account.q.advs) && WalkOk(walk, now) && |walk| == 1
    ensures CheckAll(cfg, p, walk, now).0 == CheckPeer(cfg, p, walk[0].0, walk[0].1)
  {
    hide AllOk, CheckPeer, Sound, KeyOk;
    assert walk[..0] == [];
    assert CheckAll(cfg, p, walk[..0], now) == (p, false);
  }

  /** What one session's records and losses do to another neighbour keeps everything
      that whole sessions keep: the order of withdrawals, the hold-down, the silence
      of a closed exchange. */
  lemma {:induction false} OthersStayInOrder(cfg: NodeConfig, w: World, s: nat, p: nat, peer: Peer, key: Key, now: int)
    requires w.Valid() && KeysOk(w) && s < MAX_SESSIONS && p < MAX_SESSIONS && p != s && KeyOk(key) && now > 0
    requires PeerOk(cfg.peer, peer, now) && AllOk(peer.account.q.advs)
    ensures PeerOk(cfg.peer, Poisoned(cfg, w, s, p, peer, now), now)
    ensures PeerOk(cfg.peer, Informed(cfg, w, p, peer, key, now), now)
  {
    hide PeerOk, Poisoned, Informed, Step, AllOk, KeyOk, KeysOk, WalkOk;
    LossIsAChange(cfg, w, s, p, peer, now);
    NewsIsAChange(cfg, w, p, peer, key, now);
    if walk: Walk :|
      WalkOk(walk, now) && Poisoned(cfg, w, s, p, peer, now) == Step(cfg.peer, peer, Changed(walk, now)) {
      StepKeeps(cfg.peer, peer, Changed(walk, now), now);
    }
    if walk: Walk :|
      WalkOk(walk, now) && Informed(cfg, w, p, peer, key, now) == Step(cfg.peer, peer, Changed(walk, now)) {
      StepKeeps(cfg.peer, peer, Changed(walk, now), now);
    }
  }
}
