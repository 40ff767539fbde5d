/** The node's tables and the code that keeps them: searched by loops and changed in
  * place, record by record.
  */
module FlexNodes {
  import opened Base
  import opened Text
  import opened World
  import opened Advertise
  import opened Drain
  import opened AdvRuns
  import opened Peers
  import opened PeerSlots
  import opened Routing
  import opened DestTable

  /** Kept beside each session: whether the neighbour's own entry is in the tables, the
      highest SSID its INIT declared, whose learned table the slot holds, and when
      that session went away (0 while it is up). */
  datatype LinkState = LinkState(entered: bool, maxSsid: int, owner: string, diedAt: int, ltAnchor: int)

  const ADOPT_MAX_AGE := 600
  const NEW_LINK_TIME := 2

  /** A session as it starts, its link time not measured yet. */
  function NewSession(base: string, ssid: int, port: int): Session
  {
    Session(true, true, base, ssid, port, NEW_LINK_TIME)
  }

  /** flex_learned_adopt, from slot `si` on: whose table slot `s` takes over for `call`. */
  function AdoptFrom(w: World, links: seq<LinkState>, s: nat, call: string, now: int, si: nat): (from: Option<nat>)
    requires w.Valid() && |links| == MAX_SESSIONS && si <= MAX_SESSIONS
    ensures from.Some? ==> from.value < MAX_SESSIONS && (from.value == s || !w.sessions[from.value].active)
    decreases MAX_SESSIONS - si
  {
    if si == MAX_SESSIONS then None
    else if Adoptable(w, links, s, call, now, si) then Some(si)
    else AdoptFrom(w, links, s, call, now, si + 1)
  }

  predicate Adoptable(w: World, links: seq<LinkState>, s: nat, call: string, now: int, si: nat)
    requires w.Valid() && |links| == MAX_SESSIONS && si < MAX_SESSIONS
  {
    && (si == s || !w.sessions[si].active) && w.learned[si] != [] && SameText(links[si].owner, call)
    && !(links[si].diedAt != 0 && now - links[si].diedAt > ADOPT_MAX_AGE)
  }

  predicate SsidsOk(sessions: seq<Session>, links: seq<LinkState>)
    requires |sessions| == |links|
  {
    forall p :: 0 <= p < |links| ==> 0 <= sessions[p].ssid <= 15 && 0 <= links[p].maxSsid <= 15
  }

  /** First slot without a session; the length if there is none. */
  function FreeSlot(sessions: seq<Session>, from: nat): (i: nat)
    requires from <= |sessions|
    ensures from <= i <= |sessions| && (i < |sessions| ==> !sessions[i].active)
    decreases |sessions| - from
  {
    if from == |sessions| || !sessions[from].active then from else FreeSlot(sessions, from + 1)
  }

  /** A learned table moves with its owner; a fresh session knows nothing else. */
  function Inherit(links: seq<LinkState>, s: nat, from: Option<nat>, call: string): (r: seq<LinkState>)
    requires |links| == MAX_SESSIONS && s < MAX_SESSIONS && (from.Some? ==> from.value < MAX_SESSIONS)
    ensures |r| == MAX_SESSIONS
  {
    var anchor := if from.Some? then links[from.value].ltAnchor else 0;
    var moved := if from.Some? && from.value != s
                 then links[from.value := links[from.value].(owner := "", diedAt := 0, ltAnchor := 0)] else links;
    moved[s := LinkState(false, 0, call, 0, anchor)]
  }

  /** The tables once session `s` has its neighbour's own entry; `done`: it has it. */
  function Joined(cfg: NodeConfig, t: Tables, s: nat, done: bool, key: Key): Tables
    requires t.w.Valid() && s < MAX_SESSIONS
  {
    if done then t else Entered(t, cfg.peer.transit, Covers(cfg.locals, key), s, key)
  }

  /** Neighbour `p` then: told of the entry if it changed what session `s` taught. */
  function ToldOfJoin(cfg: NodeConfig, t: Tables, s: nat, done: bool, key: Key, p: nat, peer: Peer, now: int): Peer
    requires t.w.Valid() && s < MAX_SESSIONS && p < MAX_SESSIONS && KeyOk(key) && AllOk(peer.account.q.advs)
  {
    var mid := Merge(t, cfg.peer.transit, Covers(cfg.locals, key), Record(key, 1), s).0.w;
    if done || p == s || mid == t.w then peer else Informed(cfg, mid, p, peer, key, now)
  }

  /** Whose table the session in slot `s` starts with. */
  function Adopted(w: World, links: seq<LinkState>, s: nat, call: string, now: int): (from: Option<nat>)
    requires w.Valid() && |links| == MAX_SESSIONS && s < MAX_SESSIONS
    ensures from.Some? ==> from.value < MAX_SESSIONS && (from.value == s || !w.sessions[from.value].active)
  {
    if call == "" then None else AdoptFrom(w, links, s, call, now, 0)
  }

  predicate AnchorMoves(cfg: NodeConfig, x: LinkState, sampled: Option<int>)
  {
    cfg.peer.transit && sampled.Some? &&
    (if sampled.value > x.ltAnchor then sampled.value - x.ltAnchor else x.ltAnchor - sampled.value) >= THRESHOLD_ABS
  }

  /** The link time the others were last told of. */
  function Anchored(cfg: NodeConfig, x: LinkState, sampled: Option<int>): LinkState
  {
    if AnchorMoves(cfg, x, sampled) then x.(ltAnchor := sampled.value) else x
  }

  /** Neighbour `p` after a sample of session `s`: everything learned there is decided
      again when the link time has left its anchor. */
  function ToldOfSample(cfg: NodeConfig, w: World, s: nat, x: LinkState, sampled: Option<int>, p: nat, peer: Peer,
                        now: int): Peer
    requires w.Valid() && KeysOk(w) && s < MAX_SESSIONS && p < MAX_SESSIONS && AllOk(peer.account.q.advs)
  {
    if AnchorMoves(cfg, x, sampled) && w.learned[s] != [] then Poisoned(cfg, w, s, p, peer, now) else peer
  }

  /** The neighbour's own entry, once made, is a direct one at cost 1, and the walk over
      direct neighbours visits it: unless a local call covers it, or the tables have
      no room. */
  lemma {:induction false} NeighbourIsWalked(cfg: NodeConfig, t: Tables, s: nat, key: Key)
    requires t.w.Valid() && s < MAX_SESSIONS && cfg.peer.transit && !Covers(cfg.locals, key)
    requires Teaches(t.w, s, Record(key, 1))
    requires FindDest(t.dests, key, 0) < |t.dests| || |t.dests| < MAX_DESTS
    ensures var ls := Joined(cfg, t, s, false, key).w.learned[s]; var i := IndexOf(ls, key, 0);
            && i < |ls| && ls[i] == Learned(key, 1, true)
            && exists k :: 0 <= k < |Rows(ls, true, |ls|)| && Rows(ls, true, |ls|)[k] == key
  {
    hide Covers, Rows;
    var r := Record(key, 1);
    MergeRows(t, r, s);
    var ms := Taught(t.w, s, r).learned[s];
    IndexOfLearned(t.w.learned[s], r, key);
    var ls := Joined(cfg, t, s, false, key).w.learned[s];
    assert ls == Flagged(ms, key);
    var i := IndexOf(ms, key, 0);
    IndexOfIsFirst(ms, key, 0);
    IndexOfIsFirst(ls, key, 0);
    FlaggedKeys(ms, key);
    assert IndexOf(ls, key, 0) == i;
    RowsContain(ls, true, |ls|, i);
  }

  lemma {:induction false} FlagKeysOk(w: World, s: nat, key: Key)
    requires w.Valid() && KeysOk(w) && s < MAX_SESSIONS
    ensures KeysOk(w.(learned := w.learned[s := Flagged(w.learned[s], key)]))
  {
  }

  lemma {:induction false} NeighbourKeyOk(w: World, s: nat, gotInit: bool, maxSsid: int)
    requires w.Valid() && KeysOk(w) && s < MAX_SESSIONS && 0 <= w.sessions[s].ssid <= 15 && 0 <= maxSsid <= 15
    ensures KeyOk(NeighbourKey(w, s, gotInit, maxSsid))
  {
  }

  ghost predicate SlotOk(cfg: Config, s: PeerSlot)
    reads s
  {
    s.cfg == cfg && QueueOk(s.Table()) && AllOk(s.advs)
  }

  lemma {:induction false} CheckedQueue(cfg: Config, p: Peer, key: Key, c: Case)
    requires QueueOk(p.account.q) && AllOk(p.account.q.advs) && Sound(c) && KeyOk(key)
    ensures var q := CheckPeer(cfg, p, key, c).account.q; QueueOk(q) && AllOk(q.advs)
  {
    hide AllOk, Checked, DirectAfter, MayCheck;
  }

  lemma {:induction false} InactiveOffersNothing(w: World, si: nat, key: Key)
    requires w.Valid() && si < MAX_SESSIONS
    ensures !w.sessions[si].active ==> OfferVia(w, si, key) == None
  {
  }

  lemma {:induction false} EmptiedQueue(cfg: Config, p: Peer, now: int)
    requires QueueOk(p.account.q) && AllOk(p.account.q.advs) && now > 0
    ensures var q := DrainPeer(cfg, p, now).account.q; QueueOk(q) && AllOk(q.advs)
  {
    hide AllOk, DrainOnce, AnyQueued;
    if cfg.transit { DrainConserves(p.account.q, !Allowed(cfg, p), p.Pcf(), now); }
  }

  lemma {:induction false} InactiveUnmoved(cfg: NodeConfig, w: World, p: nat, peer: Peer, key: Key, now: int)
    requires w.Valid() && p < MAX_SESSIONS && AllOk(peer.account.q.advs) && KeyOk(key) && !w.sessions[p].active
    ensures Considered(cfg, w, p, peer, key, false, now) == peer
  {
  }

  lemma {:induction false} InactiveUndrained(cfg: NodeConfig, w: World, p: nat, peer: Peer, now: int)
    requires w.Valid() && p < MAX_SESSIONS && AllOk(peer.account.q.advs) && !w.sessions[p].active
    ensures Emptied(cfg, w, p, peer, now) == peer
  {
  }

  lemma {:induction false} SameLearnedKeys(w: World, v: World)
    requires w.Valid() && v.Valid() && KeysOk(w) && v.learned == w.learned
    ensures KeysOk(v)
  {
  }

  lemma {:induction false} InactiveUnwalked(cfg: NodeConfig, w: World, p: nat, peer: Peer, keys: seq<Key>, now: int)
    requires w.Valid() && p < MAX_SESSIONS && AllKeysOk(keys) && AllOk(peer.account.q.advs) && !w.sessions[p].active
    ensures Walked(cfg, w, p, peer, keys, false, now).0 == peer
  {
  }

  lemma {:induction false} EmptiedUp(cfg: NodeConfig, w: World, p: nat, peer: Peer, now: int)
    requires w.Valid() && p < MAX_SESSIONS && AllOk(peer.account.q.advs)
    requires w.sessions[p].active && w.sessions[p].linked
    ensures Emptied(cfg, w, p, peer, now) == DrainPeer(cfg.peer, peer, now)
  {
  }

  lemma {:induction false} KeysOfSession(w: World, s: nat)
    requires w.Valid() && KeysOk(w) && s < MAX_SESSIONS
    ensures forall k :: 0 <= k < |w.learned[s]| ==> KeyOk(w.learned[s][k].key)
  {
  }

  lemma {:induction false} EmptyQueueOk()
    ensures QueueOk(EMPTY_QUEUE) && AllOk([])
  {
  }

  method MakeSlots(cfg: Config) returns (slots: seq<PeerSlot>)
    ensures |slots| == MAX_SESSIONS && fresh(slots)
    ensures forall i, j :: 0 <= i < j < MAX_SESSIONS ==> slots[i] != slots[j]
    ensures forall p :: 0 <= p < MAX_SESSIONS ==> SlotOk(cfg, slots[p])
  {
    hide AllOk, QueueOk;
    slots := [];
    while |slots| < MAX_SESSIONS
      invariant |slots| <= MAX_SESSIONS && fresh(slots)
      invariant forall i, j :: 0 <= i < j < |slots| ==> slots[i] != slots[j]
      invariant forall p :: 0 <= p < |slots| ==> SlotOk(cfg, slots[p])
      decreases MAX_SESSIONS - |slots|
    {
      var s := new PeerSlot(cfg, 0);
      EmptyQueueOk();
      assert s.Table() == s.State().account.q == EMPTY_QUEUE;
      assert SlotOk(cfg, s);
      slots := slots + [s];
    }
  }

  class FlexNode {
    const cfg: NodeConfig
    const slots: seq<PeerSlot>
    var sessions: seq<Session>
    var learned: seq<seq<Learned>>
    var opts: seq<set<LinkOpt>>
    var dests: seq<Dest>
    var links: seq<LinkState>

    ghost function View(): World reads this { World(sessions, learned, opts) }

    ghost predicate Sized()
      reads this
    {
      |sessions| == |learned| == |opts| == |links| == |slots| == MAX_SESSIONS
    }

    ghost predicate Valid()
      reads this, slots
    {
      && Sized() && View().Valid() && KeysOk(View()) && SsidsOk(sessions, links)
      && (forall i, j :: 0 <= i < j < MAX_SESSIONS ==> slots[i] != slots[j])
      && (forall p :: 0 <= p < MAX_SESSIONS ==> SlotOk(cfg.peer, slots[p]))
    }

    constructor (cfg: NodeConfig)
      ensures Valid() && fresh(slots) && this.cfg == cfg && dests == []
      ensures forall p :: 0 <= p < MAX_SESSIONS ==> !sessions[p].active && learned[p] == []
    {
      hide AllOk, QueueOk;
      var made := MakeSlots(cfg.peer);
      this.cfg := cfg;
      slots := made;
      sessions := seq(MAX_SESSIONS, i => Session(false, false, "", 0, 0, 0));
      learned := seq(MAX_SESSIONS, i => []);
      opts := seq(MAX_SESSIONS, i => {});
      dests := [];
      links := seq(MAX_SESSIONS, i => LinkState(false, 0, "", 0, 0));
    }

    // ----- what a route costs from here

    /** The inner loop over one session's learned table. */
    method LearnedIndex(si: nat, key: Key) returns (i: nat)
      requires Sized() && si < MAX_SESSIONS
      ensures i == IndexOf(learned[si], key, 0)
    {
      i := 0;
      while i < |learned[si]| && learned[si][i].key != key
        invariant i <= |learned[si]| && IndexOf(learned[si], key, i) == IndexOf(learned[si], key, 0)
      {
        i := i + 1;
      }
    }

    method IsNeighbourOfOurs(key: Key) returns (r: bool)
      requires Sized()
      ensures r == IsOurPeer(View(), key)
    {
      var si := 0;
      while si < MAX_SESSIONS
        invariant si <= MAX_SESSIONS && forall k :: 0 <= k < si ==> !IsSessionPeer(View(), k, key)
      {
        if IsSessionPeer(World(sessions, learned, opts), si, key) { return true; }
        si := si + 1;
      }
      return false;
    }

    /** What an active session offers for `key`, its link time and options counted. */
    method OfferFrom(si: nat, key: Key) returns (o: Option<Offer>)
      requires Sized() && si < MAX_SESSIONS && sessions[si].active
      ensures o == OfferVia(View(), si, key)
    {
      hide IndexOf, IsSessionPeer, SourceAllows, OptsCost, Capped;
      var ri := LearnedIndex(si, key);
      if ri == |learned[si]| { return None; }
      var lr := learned[si][ri];
      if lr.rtt <= 0 || lr.rtt >= INFINITY { return None; }
      if !SourceAllows(opts[si], lr.direct || IsSessionPeer(World(sessions, learned, opts), si, key)) { return None; }
      var linkRtt := sessions[si].linkTime;
      if linkRtt < 1 { linkRtt := 1; }
      var raw := Capped(lr.rtt + linkRtt);
      var cand := OptsCost(opts[si], raw);
      return Some(Offer(cand, lr.direct, cand - raw));
    }

    /** flex_expected_rtt */
    method ExpectedRtt(peer: int, key: Key) returns (best: Best)
      requires Sized()
      ensures best == Expected(View(), cfg.crossport, peer, key)
    {
      hide OfferVia, IsSessionPeer;
      ghost var w := View();
      if peer >= 0 && IsSessionPeer(World(sessions, learned, opts), peer, key) { return NO_SOURCE; }
      best := NO_SOURCE;
      var si := 0;
      while si < MAX_SESSIONS
        invariant si <= MAX_SESSIONS && best == BestOf(w, cfg.crossport, peer, key, si)
      {
        var usable := si != peer && sessions[si].active;
        if !cfg.crossport && 0 <= peer < MAX_SESSIONS && sessions[si].port != sessions[peer].port { usable := false; }
        if usable {
          var o := OfferFrom(si, key);
          if o.Some? && o.value.cost < best.cost { best := Best(o.value.cost, si, o.value.direct, o.value.pen); }
        } else {
          InactiveOffersNothing(w, si, key);
        }
        si := si + 1;
      }
    }

    // ----- telling the neighbours

    /** flex_advertise_check */
    method AdvertiseCheck(pi: nat, key: Key, force: bool, now: int)
      requires Valid() && pi < MAX_SESSIONS && SlotOk(cfg.peer, slots[pi]) && KeyOk(key)
      modifies slots[pi]
      ensures Valid()
      ensures slots[pi].State() == Considered(cfg, View(), pi, old(slots[pi].State()), key, force, now)
    {
      hide AllOk, KeysOk, SsidsOk, Expected, QueueOk, CheckPeer, KeyOk;
      ghost var was := slots[pi].State();
      if !sessions[pi].active || !sessions[pi].linked { return; }
      var best := ExpectedRtt(pi, key);
      var li := LearnedIndex(pi, key);
      var neighbour := IsNeighbourOfOurs(key);
      var c := Case(best, OwnOnly in opts[pi], li < |learned[pi]| && !neighbour, cfg.directOnly, force, now);
      assert c == CaseFor(cfg, View(), pi, key, force, now);
      slots[pi].Check(key, c);
      CheckedQueue(cfg.peer, was, key, c);
      assert SlotOk(cfg.peer, slots[pi]);
    }

    /** flex_advertise_drain, for a live session. */
    method AdvertiseDrain(pi: nat, now: int)
      requires Valid() && pi < MAX_SESSIONS && SlotOk(cfg.peer, slots[pi]) && now > 0
      modifies slots[pi]
      ensures Valid()
      ensures slots[pi].State() == Emptied(cfg, View(), pi, old(slots[pi].State()), now)
    {
      hide AllOk, KeysOk, SsidsOk, QueueOk, DrainPeer;
      if !sessions[pi].active || !sessions[pi].linked { return; }
      ghost var was := slots[pi].State();
      slots[pi].Drain(now);
      EmptiedQueue(cfg.peer, was, now);
      assert SlotOk(cfg.peer, slots[pi]);
    }

    /** One destination decided for every other live session. */
    method CheckOthers(si: nat, key: Key, now: int)
      requires Valid() && si < MAX_SESSIONS && KeyOk(key)
      modifies slots
      ensures Valid()
      ensures forall p :: 0 <= p < MAX_SESSIONS ==>
                slots[p].State() == if p == si then old(slots[p].State())
                  else Considered(cfg, View(), p, old(slots[p].State()), key, false, now)
    {
      hide AllOk, KeysOk, SsidsOk, QueueOk, Considered, KeyOk;
      var pi := 0;
      while pi < MAX_SESSIONS
        invariant pi <= MAX_SESSIONS && Valid()
        invariant forall p :: pi <= p < MAX_SESSIONS ==> slots[p].State() == old(slots[p].State())
        invariant forall p :: 0 <= p < pi ==>
                    slots[p].State() == if p == si then old(slots[p].State())
                      else Considered(cfg, View(), p, old(slots[p].State()), key, false, now)
      {
        assert SlotOk(cfg.peer, slots[pi]);
        if pi != si {
          if sessions[pi].active {
            AdvertiseCheck(pi, key, false, now);
          } else {
            InactiveUnmoved(cfg, View(), pi, slots[pi].State(), key, now);
          }
        }
        pi := pi + 1;
      }
    }

    /** Every live session's queue is drained. */
    method DrainAll(now: int)
      requires Valid() && now > 0
      modifies slots
      ensures Valid()
      ensures forall p :: 0 <= p < MAX_SESSIONS ==>
              slots[p].State() == Emptied(cfg, View(), p, old(slots[p].State()), now)
    {
      hide AllOk, KeysOk, SsidsOk, QueueOk, Emptied;
      var pi := 0;
      while pi < MAX_SESSIONS
        invariant pi <= MAX_SESSIONS && Valid()
        invariant forall p :: pi <= p < MAX_SESSIONS ==> slots[p].State() == old(slots[p].State())
        invariant forall p :: 0 <= p < pi ==> slots[p].State() == Emptied(cfg, View(), p, old(slots[p].State()), now)
      {
        assert SlotOk(cfg.peer, slots[pi]);
        if sessions[pi].active {
          AdvertiseDrain(pi, now);
        } else {
          InactiveUndrained(cfg, View(), pi, slots[pi].State(), now);
        }
        pi := pi + 1;
      }
    }

    /** Everything learned from `dead` decided for every other live session. */
    method CheckRows(dead: nat, now: int)
      requires Valid() && dead < MAX_SESSIONS && AllKeysOk(Rows(learned[dead], false, |learned[dead]|))
      modifies slots
      ensures Valid()
      ensures forall p :: 0 <= p < MAX_SESSIONS && p != dead ==>
                slots[p].State() ==
                Walked(cfg, View(), p, old(slots[p].State()), Rows(learned[dead], false, |learned[dead]|), false, now).0
    {
      hide AllOk, KeysOk, SsidsOk, QueueOk, Walked, Considered, KeyOk;
      ghost var w := View();
      KeysOfSession(w, dead);
      forall p | 0 <= p < MAX_SESSIONS
        ensures SlotOk(cfg.peer, slots[p]) &&
                Walked(cfg, w, p, slots[p].State(), [], false, now) == (slots[p].State(), false)
      {
        assert SlotOk(cfg.peer, slots[p]);
        WalkedNothing(cfg, w, p, slots[p].State(), false, now);
      }
      var ri := 0;
      ghost var keys: seq<Key> := [];
      while ri < |learned[dead]|
        invariant ri <= |learned[dead]| && Valid()
        invariant keys == Rows(learned[dead], false, ri) && AllKeysOk(keys)
        invariant forall p :: 0 <= p < MAX_SESSIONS && p != dead ==>
                    slots[p].State() == Walked(cfg, w, p, old(slots[p].State()), keys, false, now).0
      {
        var key := learned[dead][ri].key;
        if key.call != "" {
          forall p | 0 <= p < MAX_SESSIONS && p != dead {
            WalkedSnoc(cfg, w, p, old(slots[p].State()), keys, key, false, now);
          }
          CheckOthers(dead, key, now);
          keys := keys + [key];
        }
        ri := ri + 1;
      }
    }

    /** flex_advertise_poison_session, the session being inactive already. */
    method PoisonSession(dead: nat, now: int)
      requires Valid() && dead < MAX_SESSIONS && !sessions[dead].active && now > 0
      modifies slots
      ensures Valid()
      ensures forall p :: 0 <= p < MAX_SESSIONS && p != dead ==>
                slots[p].State() == Poisoned(cfg, View(), dead, p, old(slots[p].State()), now)
      ensures cfg.peer.transit ==> slots[dead].Table() == EMPTY_QUEUE
    {
      hide AllOk, KeysOk, SsidsOk, QueueOk, Walked, KeyOk, Emptied, Rows;
      KeysOfSession(View(), dead);
      RowsOk(learned[dead], false, |learned[dead]|);
      forall p | 0 <= p < MAX_SESSIONS ensures SlotOk(cfg.peer, slots[p]) {
      }
      if !cfg.peer.transit { return; }
      CheckRows(dead, now);
      DrainAll(now);
      slots[dead].Clear();
      EmptyQueueOk();
      assert SlotOk(cfg.peer, slots[dead]);
    }

    /** A change of `key` at session `si` decided for every other live session, each
        queue drained at once. */
    method TellOthers(si: nat, key: Key, now: int)
      requires Valid() && si < MAX_SESSIONS && KeyOk(key) && now > 0
      modifies slots
      ensures Valid()
      ensures forall p :: 0 <= p < MAX_SESSIONS ==>
                slots[p].State() == if p == si then old(slots[p].State())
                  else Informed(cfg, View(), p, old(slots[p].State()), key, now)
    {
      hide AllOk, KeysOk, SsidsOk, QueueOk, Considered, KeyOk, Emptied;
      var pi := 0;
      while pi < MAX_SESSIONS
        invariant pi <= MAX_SESSIONS && Valid()
        invariant forall p :: pi <= p < MAX_SESSIONS ==> slots[p].State() == old(slots[p].State())
        invariant forall p :: 0 <= p < pi ==>
                    slots[p].State() == if p == si then old(slots[p].State())
                      else Informed(cfg, View(), p, old(slots[p].State()), key, now)
      {
        assert SlotOk(cfg.peer, slots[pi]);
        if pi != si {
          ghost var was := slots[pi].State();
          if sessions[pi].active {
            AdvertiseCheck(pi, key, false, now);
            assert SlotOk(cfg.peer, slots[pi]);
            AdvertiseDrain(pi, now);
          } else {
            InactiveUnmoved(cfg, View(), pi, was, key, now);
            InactiveUndrained(cfg, View(), pi, was, now);
          }
        }
        pi := pi + 1;
      }
    }

    // ----- the tables

    /** flex_learned_add */
    method LearnedAdd(si: nat, r: Record, now: int)
      requires Valid() && si < MAX_SESSIONS && KeyOk(r.key) && now > 0
      modifies `learned, slots
      ensures Valid() && View() == Taught(old(View()), si, r)
      ensures forall p :: 0 <= p < MAX_SESSIONS ==>
                slots[p].State() ==
                if p == si || View() == old(View()) then old(slots[p].State())
                else Informed(cfg, View(), p, old(slots[p].State()), r.key, now)
    {
      hide AllOk, QueueOk, Informed, KeyOk;
      if r.key.call == "" { return; }
      var i := LearnedIndex(si, r.key);
      if i < |learned[si]| {
        if learned[si][i].rtt != r.rtt {
          learned := learned[si := learned[si][i := learned[si][i].(rtt := r.rtt)]];
          assert View() != old(View());
          TellOthers(si, r.key, now);
        } else {
          assert learned[si][i := learned[si][i].(rtt := r.rtt)] == learned[si];
          assert learned[si := learned[si]] == learned;
        }
        return;
      }
      if |learned[si]| >= MAX_LEARNED { return; }
      learned := learned[si := learned[si] + [Learned(r.key, r.rtt, false)]];
      assert View() != old(View());
      TellOthers(si, r.key, now);
    }

    /** flex_dest_reelect */
    method DestReelect(i: nat)
      requires Sized() && i < |dests|
      modifies `dests
      ensures dests == old(dests)[i := Reelected(View(), cfg.peer.transit, old(dests[i]))]
    {
      hide IndexOf, OptsCost, Report;
      ghost var w := View();
      var d := dests[i];
      var best, bestCost, bestHere := -1, INFINITY, INFINITY;
      var si := 0;
      while cfg.peer.transit && si < MAX_SESSIONS
        invariant si <= MAX_SESSIONS && (!cfg.peer.transit ==> si == 0) && dests == old(dests)
        invariant (best, bestHere) == BestSource(w, d.key, d.via, si)
        invariant best >= 0 ==>
                  Report(w, best, d.key).Some? && bestCost == OptsCost(opts[best], Report(w, best, d.key).value.rtt)
      {
        var c, here := OfferHere(si, d.key);
        if here < INFINITY && (here < bestHere || (here == bestHere && si == d.via)) {
          best, bestCost, bestHere := si, c, here;
        }
        si := si + 1;
      }
      if best < 0 {
        dests := dests[i := d.(rtt := INFINITY, isInf := true, via := -1)];
      } else {
        dests := dests[i := d.(rtt := bestCost, isInf := false, via := best, port := sessions[best].port)];
      }
    }

    /** What session `si` reports for `key`, with its link penalty, and its cost from
        here; infinity if it offers nothing. */
    method OfferHere(si: nat, key: Key) returns (c: int, here: int)
      requires Sized() && si < MAX_SESSIONS
      ensures here == CostVia(View(), si, key)
      ensures here < INFINITY ==>
              Report(View(), si, key).Some? && c == OptsCost(opts[si], Report(View(), si, key).value.rtt)
    {
      hide IndexOf, OptsCost, Capped;
      c, here := INFINITY, INFINITY;
      if !sessions[si].active { return; }
      var ri := LearnedIndex(si, key);
      if ri == |learned[si]| { return; }
      var lr := learned[si][ri];
      if lr.rtt <= 0 || lr.rtt >= INFINITY { return; }
      c := OptsCost(opts[si], lr.rtt);
      here := CostHere(World(sessions, learned, opts), c, si);
    }

    /** flex_dest_reelect_via */
    method DestReelectVia(si: int)
      requires Sized()
      modifies `dests
      ensures dests == ReelectedVia(View(), cfg.peer.transit, old(dests), si)
    {
      hide Reelected;
      ghost var w := View();
      var i := 0;
      while i < |dests|
        invariant i <= |dests| == |old(dests)|
        invariant forall k :: 0 <= k < i ==>
                    dests[k] == if NeedsReelection(old(dests)[k], si)
                      then Reelected(w, cfg.peer.transit, old(dests)[k]) else old(dests)[k]
        invariant forall k :: i <= k < |dests| ==> dests[k] == old(dests)[k]
      {
        if dests[i].via == si || (dests[i].via < 0 && dests[i].rtt < INFINITY) {
          DestReelect(i);
        }
        i := i + 1;
      }
    }

    method FindRow(key: Key) returns (i: nat)
      ensures i == FindDest(dests, key, 0)
    {
      i := 0;
      while i < |dests| && !SameKey(dests[i].key, key)
        invariant i <= |dests| && FindDest(dests, key, i) == FindDest(dests, key, 0)
      {
        i := i + 1;
      }
    }

    /** flex_local_covers */
    method LocalCovers(key: Key) returns (r: bool)
      ensures r == Covers(cfg.locals, key)
    {
      var i := 0;
      while i < |cfg.locals|
        invariant i <= |cfg.locals| && forall k :: 0 <= k < i ==> !CoveredBy(cfg.locals[k], key)
      {
        if key.lo <= cfg.locals[i].ssid <= key.hi && SameText(cfg.locals[i].base, key.call) { return true; }
        i := i + 1;
      }
      return false;
    }

    /** flex_dtable_merge for a record from session `si`. */
    method DtableMerge(si: nat, r: Record, now: int) returns (rc: int)
      requires Valid() && si < MAX_SESSIONS && KeyOk(r.key) && now > 0
      modifies `dests, `learned, slots
      ensures Valid()
      ensures (Tables(View(), dests), rc) ==
              Merge(Tables(old(View()), old(dests)), cfg.peer.transit, Covers(cfg.locals, r.key), r, si)
      ensures forall p :: 0 <= p < MAX_SESSIONS ==>
                slots[p].State() ==
                if p == si || View() == old(View()) then old(slots[p].State())
                else Informed(cfg, View(), p, old(slots[p].State()), r.key, now)
    {
      hide AllOk, QueueOk, Informed, KeyOk, FindDest, Taught, CostHere, OptsCost, Reelected, KeysOk, SsidsOk, Covers;
      var ours := LocalCovers(r.key);
      if ours || r.rtt == 0 { return 0; }
      var eff := OptsCost(opts[si], r.rtt);
      var i := FindRow(r.key);
      if i < |dests| {
        var w := World(sessions, learned, opts);
        var isCurrent := dests[i].via == si;
        var isBetter := CostHere(w, eff, si) < CostHere(w, dests[i].rtt, dests[i].via);
        if isCurrent || isBetter {
          dests := dests[i := dests[i].(rtt := eff, isInf := r.Withdrawal(), port := sessions[si].port, via := si)];
        }
        ghost var d := dests[i];
        assert dests == old(dests)[i := d];
        if cfg.peer.transit {
          LearnedAdd(si, r, now);
          if isCurrent { DestReelect(i); }
        }
        assert dests == old(dests)[i := if cfg.peer.transit && isCurrent then Reelected(View(), true, d) else d];
        return 2;
      }
      if |dests| < MAX_DESTS {
        dests := dests + [Dest(r.key, eff, r.Withdrawal(), sessions[si].port, si)];
        if cfg.peer.transit { LearnedAdd(si, r, now); }
        return 1;
      }
      return 0;
    }

    /** The route part of FlexNet_CloseSession, and of the reaper. */
    method CloseSession(si: nat, now: int)
      requires Valid() && si < MAX_SESSIONS && now > 0
      modifies `sessions, `dests, `links, slots
      ensures Valid() && links == old(links)[si := old(links[si]).(diedAt := now)]
      ensures Tables(View(), dests) == Close(Tables(old(View()), old(dests)), cfg.peer.transit, si)
      ensures forall p :: 0 <= p < MAX_SESSIONS && p != si ==>
                slots[p].State() == Poisoned(cfg, View(), si, p, old(slots[p].State()), now)
    {
      hide AllOk, QueueOk, Poisoned, KeyOk, KeysOk, ReelectedVia;
      sessions := sessions[si := sessions[si].(active := false, linked := false)];
      SameKeys(old(View()), View());
      assert View() == Closed(old(View()), si);
      links := links[si := links[si].(diedAt := now)];
      DestReelectVia(si);
      PoisonSession(si, now);
    }

    /** flex_learned_adopt without the move */
    method FindAdoptable(s: nat, call: string, now: int) returns (from: Option<nat>)
      requires Sized() && s < MAX_SESSIONS
      ensures from == Adopted(View(), links, s, call, now)
    {
      hide Adoptable;
      if call == "" { return None; }
      var si := 0;
      while si < MAX_SESSIONS
        invariant si <= MAX_SESSIONS &&
                  AdoptFrom(View(), links, s, call, now, si) == AdoptFrom(View(), links, s, call, now, 0)
      {
        if Adoptable(World(sessions, learned, opts), links, s, call, now, si) { return Some(si); }
        si := si + 1;
      }
      return None;
    }

    /** The slot part of FlexNet_InitSession for a link that has no session: the first
        free slot; `call` is the neighbour's call as text, `base` and `ssid` its parts.
        A neighbour back within ten minutes finds its learned table again, with the
        time of its last refresh. */
    method OpenSession(base: string, ssid: int, port: int, call: string, options: set<LinkOpt>, now: int)
      returns (si: nat)
      requires Valid() && 0 <= ssid <= 15
      modifies `sessions, `learned, `opts, `links, slots
      ensures Valid() && si == FreeSlot(old(sessions), 0)
      ensures si == MAX_SESSIONS ==> View() == old(View()) && links == old(links)
      ensures si == MAX_SESSIONS ==> forall p :: 0 <= p < MAX_SESSIONS ==> slots[p].State() == old(slots[p].State())
      ensures si < MAX_SESSIONS ==>
                var from := Adopted(old(View()), old(links), si, call, now);
                && Tables(View(), dests) ==
                     Open(Tables(old(View()), old(dests)), si, NewSession(base, ssid, port), options, from)
                && links == Inherit(old(links), si, from, call)
                && slots[si].State() == Started(now, if from.Some? then old(slots[from.value].lastAdvert) else 0)
                && forall p :: 0 <= p < MAX_SESSIONS && p != si ==>
                     slots[p].State() ==
                       (if from == Some(p) then old(slots[p].State()).(lastAdvert := 0) else old(slots[p].State()))
    {
      hide AllOk, QueueOk, KeyOk, AdoptFrom;
      si := 0;
      while si < MAX_SESSIONS && sessions[si].active
        invariant si <= MAX_SESSIONS && FreeSlot(sessions, si) == FreeSlot(sessions, 0)
      {
        si := si + 1;
      }
      if si == MAX_SESSIONS { return; }
      var from := FindAdoptable(si, call, now);
      StartSlot(si, from, now);
      MoveTables(si, from, NewSession(base, ssid, port), call, options);
    }

    /** The neighbour's slot starts over, and keeps the time of the last refresh. */
    method StartSlot(si: nat, from: Option<nat>, now: int)
      requires Valid() && si < MAX_SESSIONS && (from.Some? ==> from.value < MAX_SESSIONS)
      modifies slots
      ensures Valid()
      ensures slots[si].State() == Started(now, if from.Some? then old(slots[from.value].lastAdvert) else 0)
      ensures forall p :: 0 <= p < MAX_SESSIONS && p != si ==>
                slots[p].State() ==
                  (if from == Some(p) then old(slots[p].State()).(lastAdvert := 0) else old(slots[p].State()))
    {
      hide AllOk, QueueOk, KeysOk, SsidsOk, Started;
      forall p | 0 <= p < MAX_SESSIONS ensures SlotOk(cfg.peer, slots[p]) {
      }
      var advertAt := 0;
      if from.Some? {
        advertAt := slots[from.value].lastAdvert;
        slots[from.value].SetLastAdvert(0);
      }
      slots[si].Start(now, advertAt);
      EmptyQueueOk();
      assert SlotOk(cfg.peer, slots[si]);
    }

    /** The learned table the session starts with, and whose it is. */
    method MoveTables(si: nat, from: Option<nat>, session: Session, call: string, options: set<LinkOpt>)
      requires Valid() && si < MAX_SESSIONS && (from.Some? ==> from.value < MAX_SESSIONS) && 0 <= session.ssid <= 15
      modifies `sessions, `learned, `opts, `links
      ensures Valid() && View() == Open(Tables(old(View()), dests), si, session, options, from).w
      ensures links == Inherit(old(links), si, from, call)
    {
      hide SlotOk, KeyOk;
      var anchor := if from.Some? then links[from.value].ltAnchor else 0;
      if from.Some? && from.value != si {
        learned := learned[si := learned[from.value]][from.value := []];
        links := links[from.value := links[from.value].(owner := "", diedAt := 0, ltAnchor := 0)];
      } else if from.None? {
        learned := learned[si := []];
      }
      sessions := sessions[si := session];
      opts := opts[si := options];
      links := links[si := LinkState(false, 0, call, 0, anchor)];
    }

    // ----- the neighbour's own entry

    /** Session `pi` has its neighbour's own entry `key` in the tables since the old
        state, and the others were told, unless it was `done` already. */
    twostate predicate EntryMade(pi: nat, done: bool, key: Key, now: int)
      requires old(Valid()) && Sized() && pi < MAX_SESSIONS && KeyOk(key)
      reads this, slots
    {
      && Tables(View(), dests) == Joined(cfg, old(Tables(View(), dests)), pi, done, key)
      && forall p :: 0 <= p < MAX_SESSIONS && p != pi ==>
           slots[p].State() == ToldOfJoin(cfg, old(Tables(View(), dests)), pi, done, key, p, old(slots[p].State()), now)
    }

    /** flex_add_neighbour_entry, once a session. */
    method EnterNeighbour(pi: nat, now: int)
      requires Live(pi) && now > 0
      modifies `learned, `dests, `links, slots
      ensures Live(pi) && sessions == old(sessions)
      ensures links == old(links)[pi := old(links[pi]).(entered := true)]
      ensures KeyOk(old(OwnKey(pi))) && EntryMade(pi, old(links[pi].entered), old(OwnKey(pi)), now)
      ensures slots[pi].State() == old(slots[pi].State())
    {
      hide AllOk, QueueOk, KeyOk, KeysOk, Informed, Merge, Covers, NeighbourKey, WithFlag;
      ghost var w := View();
      NeighbourKeyOk(w, pi, slots[pi].gotInit, links[pi].maxSsid);
      if links[pi].entered {
        assert links[pi := links[pi].(entered := true)] == links;
        return;
      }
      links := links[pi := links[pi].(entered := true)];
      var key := FindOwnKey(pi);
      var rc := DtableMerge(pi, Record(key, 1), now);
      if cfg.peer.transit { FlagDirect(pi, key); }
    }

    /** The neighbour's entry counts as a direct one from now on. */
    method FlagDirect(pi: nat, key: Key)
      requires Valid() && pi < MAX_SESSIONS
      modifies `learned
      ensures Valid() && Tables(View(), dests) == WithFlag(old(Tables(View(), dests)), pi, key)
    {
      hide SlotOk, KeyOk, KeysOk, SsidsOk;
      var ri := LearnedIndex(pi, key);
      FlagKeysOk(View(), pi, key);
      if ri < |learned[pi]| {
        learned := learned[pi := learned[pi][ri := learned[pi][ri].(direct := true)]];
      } else {
        assert learned[pi := learned[pi]] == learned;
      }
    }

    ghost function OwnKey(pi: nat): Key
      requires Sized() && pi < MAX_SESSIONS
      reads this, slots
    {
      NeighbourKey(View(), pi, slots[pi].gotInit, links[pi].maxSsid)
    }

    method FindOwnKey(pi: nat) returns (key: Key)
      requires Sized() && pi < MAX_SESSIONS
      ensures key == OwnKey(pi)
    {
      var x := sessions[pi];
      var hi := x.ssid;
      if slots[pi].gotInit {
        if links[pi].maxSsid > x.ssid { hi := links[pi].maxSsid; }
      } else {
        var ri := 0;
        while ri < |learned[pi]| && !(learned[pi][ri].direct && learned[pi][ri].key.lo == x.ssid &&
                                      learned[pi][ri].key.hi >= x.ssid && learned[pi][ri].key.call == x.base)
          invariant ri <= |learned[pi]| &&
                    OwnEntry(learned[pi], x.base, x.ssid, ri) == OwnEntry(learned[pi], x.base, x.ssid, 0)
        {
          ri := ri + 1;
        }
        if ri < |learned[pi]| { hi := learned[pi][ri].key.hi; }
      }
      key := Key(x.base, x.ssid, hi);
    }

    /** flex_note_peer_established */
    method NotePeerEstablished(pi: nat, up: bool, now: int)
      requires Live(pi) && now > 0
      modifies `learned, `dests, `links, slots
      ensures Live(pi) && sessions == old(sessions) && KeyOk(old(OwnKey(pi)))
      ensures var done := old(links[pi].entered || slots[pi].State().Established()) || !up;
              && EntryMade(pi, done, old(OwnKey(pi)), now)
              && links == old(links)[pi := old(links[pi]).(entered := old(links[pi].entered) || !done)]
      ensures slots[pi].State() == Peers.NoteEstablished(old(slots[pi].State()), up)
    {
      hide AllOk, QueueOk, KeyOk, KeysOk, Informed, NeighbourKey, Entered;
      NeighbourKeyOk(View(), pi, slots[pi].gotInit, links[pi].maxSsid);
      assert links[pi := links[pi]] == links;
      if slots[pi].gotInit || slots[pi].inferred || !up { return; }
      slots[pi].NoteEstablished(true);
      assert SlotOk(cfg.peer, slots[pi]);
      EnterNeighbour(pi, now);
    }

    // ----- one neighbour's session

    /** The session is up: what a frame from its neighbour or the timer needs. */
    ghost predicate Live(pi: nat)
      reads this, slots
    {
      Valid() && pi < MAX_SESSIONS && SlotOk(cfg.peer, slots[pi]) && sessions[pi].active && sessions[pi].linked
    }

    /** What a walk for `pi` visits and finds. */
    ghost function WalkFor(pi: nat, directOnly: bool, force: bool, now: int): Walk
      requires Sized() && pi < MAX_SESSIONS
      reads this
    {
      Cases(cfg, View(), pi, Visits(View(), pi, directOnly, MAX_SESSIONS), force, now)
    }

    lemma {:induction false} WalkIsOk(pi: nat, directOnly: bool, force: bool, now: int)
      requires Valid() && pi < MAX_SESSIONS
      ensures WalkOk(WalkFor(pi, directOnly, force, now), now)
    {
      hide KeysOk, SsidsOk, SlotOk;
      VisitsOk(View(), pi, directOnly, MAX_SESSIONS);
      CasesOk(cfg, View(), pi, Visits(View(), pi, directOnly, MAX_SESSIONS), force, now);
    }

    /** One destination of a walk; was its record newly queued? */
    method VisitOne(pi: nat, key: Key, force: bool, now: int) returns (newly: bool)
      requires Live(pi) && KeyOk(key)
      modifies slots[pi]
      ensures Live(pi)
      ensures slots[pi].State() == Considered(cfg, View(), pi, old(slots[pi].State()), key, force, now)
      ensures newly == (IsQueued(slots[pi].State(), key) && !IsQueued(old(slots[pi].State()), key))
    {
      hide AllOk, QueueOk, Considered, KeyOk, KeysOk, SsidsOk, AdvIndex;
      var before := slots[pi].Find(key);
      var wasPending := before < |slots[pi].advs| && slots[pi].advs[before].pending;
      AdvertiseCheck(pi, key, force, now);
      assert SlotOk(cfg.peer, slots[pi]);
      var after := slots[pi].Find(key);
      newly := after < |slots[pi].advs| && slots[pi].advs[after].pending && !wasPending;
    }

    /** flex_advertise_walk_for_peer */
    method WalkForPeer(pi: nat, directOnly: bool, force: bool, now: int) returns (walked: nat, queued: nat)
      requires Live(pi)
      modifies slots[pi]
      ensures Live(pi)
      ensures WalkOk(WalkFor(pi, directOnly, force, now), now)
      ensures (slots[pi].State(), queued > 0) ==
              CheckAll(cfg.peer, old(slots[pi].State()), WalkFor(pi, directOnly, force, now), now)
      ensures walked == |WalkFor(pi, directOnly, force, now)|
    {
      hide AllOk, QueueOk, Walked, Considered, IsQueued, KeyOk, KeysOk, SsidsOk, Rows, Visits;
      ghost var w := View();
      ghost var was := slots[pi].State();
      ghost var keys: seq<Key> := [];
      NothingVisited(cfg, w, pi, was, directOnly, force, now);
      walked, queued := 0, 0;
      var si := 0;
      while si < MAX_SESSIONS
        invariant si <= MAX_SESSIONS && Live(pi)
        invariant AllKeysOk(keys) && keys == Visits(w, pi, directOnly, si) && walked == |keys|
        invariant (slots[pi].State(), queued > 0) == Walked(cfg, w, pi, was, keys, force, now)
      {
        VisitsStep(w, pi, directOnly, si);
        if si != pi && sessions[si].active {
          KeysOfSession(w, si);
          ghost var base := keys;
          var ri := 0;
          NoRows(learned[si], directOnly);
          assert base + [] == base;
          while ri < |learned[si]|
            invariant ri <= |learned[si]| && Live(pi)
            invariant AllKeysOk(keys) && keys == base + Rows(learned[si], directOnly, ri) && walked == |keys|
            invariant (slots[pi].State(), queued > 0) == Walked(cfg, w, pi, was, keys, force, now)
          {
            RowsStep(learned[si], directOnly, ri);
            var lr := learned[si][ri];
            if lr.key.call != "" && (!directOnly || lr.direct) {
              WalkedSnoc(cfg, w, pi, was, keys, lr.key, force, now);
              var newly := VisitOne(pi, lr.key, force, now);
              walked := walked + 1;
              if newly { queued := queued + 1; }
              assert (base + Rows(learned[si], directOnly, ri)) + [lr.key] ==
                base + (Rows(learned[si], directOnly, ri) + [lr.key]);
              keys := keys + [lr.key];
            }
            ri := ri + 1;
          }
        } else {
          assert keys + [] == keys;
        }
        si := si + 1;
      }
      WalkIsOk(pi, directOnly, force, now);
      WalkedOpen(cfg, w, pi, was, keys, force, now);
    }

    /** flex_advertise_seed_peer */
    method SeedPeer(pi: nat, now: int)
      requires Live(pi) && now > 0
      modifies slots[pi]
      ensures Live(pi) && WalkOk(WalkFor(pi, false, false, now), now)
      ensures slots[pi].State() == Seed(cfg.peer, old(slots[pi].State()), WalkFor(pi, false, false, now), now)
    {
      hide AllOk, QueueOk, KeysOk, SsidsOk, CheckAll, DrainPeer, WalkOk;
      WalkIsOk(pi, false, false, now);
      if !cfg.peer.transit { return; }
      var walked, queued := WalkForPeer(pi, false, false, now);
      if queued > 0 { AdvertiseDrain(pi, now); }
      slots[pi].SetLastAdvert(now);
      assert SlotOk(cfg.peer, slots[pi]);
    }

    /** flex_advertise_neighbours */
    method AdvertiseNeighbours(pi: nat, now: int)
      requires Live(pi) && now > 0
      modifies slots[pi]
      ensures Live(pi) && WalkOk(WalkFor(pi, true, true, now), now)
      ensures slots[pi].State() == Neighbours(cfg.peer, old(slots[pi].State()), WalkFor(pi, true, true, now), now)
    {
      hide AllOk, QueueOk, KeysOk, SsidsOk, CheckAll, DrainPeer, WalkOk;
      WalkIsOk(pi, true, true, now);
      if !cfg.peer.transit { return; }
      var walked, queued := WalkForPeer(pi, true, true, now);
      if walked > 0 { AdvertiseDrain(pi, now); }
      slots[pi].SetLastAdvert(now);
      assert SlotOk(cfg.peer, slots[pi]);
    }

    method IntroduceOurselves(pi: nat, now: int)
      requires Live(pi) && now > 0
      modifies slots[pi]
      ensures Live(pi) && WalkOk(WalkFor(pi, false, false, now), now)
      ensures slots[pi].State() == Introduce(cfg.peer, old(slots[pi].State()), WalkFor(pi, false, false, now), now)
    {
      hide AllOk, QueueOk, KeysOk, SsidsOk, Seed, WalkOk;
      slots[pi].SendOwn(false, now);
      slots[pi].SetSentRoutes();
      assert SlotOk(cfg.peer, slots[pi]);
      SeedPeer(pi, now);
    }

    /** The answer to a '3+', the session being established if it can be. */
    method AnswerRequest(pi: nat, up: bool, now: int)
      requires Live(pi) && now > 0 && (up ==> slots[pi].State().Established())
      modifies slots[pi]
      ensures Live(pi) && WalkOk(WalkFor(pi, false, true, now), now)
      ensures slots[pi].State() == OnRequest(cfg.peer, old(slots[pi].State()), up, WalkFor(pi, false, true, now), now)
    {
      hide AllOk, QueueOk, KeysOk, SsidsOk, CheckAll, DrainPeer, WalkOk, Peers.SendOwn;
      WalkIsOk(pi, false, true, now);
      slots[pi].Reopen(now);
      slots[pi].SendOwn(cfg.peer.transit, now);
      assert SlotOk(cfg.peer, slots[pi]);
      if cfg.peer.transit {
        var walked, queued := WalkForPeer(pi, false, true, now);
        OwedOk(slots[pi].Table());
        slots[pi].OweMark();
        assert SlotOk(cfg.peer, slots[pi]);
        AdvertiseDrain(pi, now);
      }
      slots[pi].SetSentRoutes();
      assert SlotOk(cfg.peer, slots[pi]);
    }

    /** Our INIT and keepalive again; the neighbour's table starts over. */
    method AnswerInit(pi: nat, now: int)
      requires Live(pi)
      modifies slots[pi]
      ensures Live(pi)
      ensures slots[pi].State() ==
              Peers.Forget(Peers.SendKeepalive(Peers.SendInit(old(slots[pi].State()), now), now), InitAnswered(now))
    {
      hide AllOk, QueueOk, KeysOk, SsidsOk, Peers.Forget, Peers.SendInit, Peers.SendKeepalive;
      slots[pi].SendInit(now);
      slots[pi].SendKeepalive(now);
      slots[pi].Forget(InitAnswered(now));
      EmptyQueueOk();
      assert SlotOk(cfg.peer, slots[pi]);
    }

    /** What follows once an INIT is noted. */
    method RespondToInit(pi: nat, answer: bool, long: bool, now: int)
      requires Live(pi) && now > 0
      modifies slots[pi]
      ensures Live(pi) && WalkOk(WalkFor(pi, false, false, now), now)
      ensures slots[pi].State() ==
              Respond(cfg.peer, old(slots[pi].State()), answer, long, WalkFor(pi, false, false, now), now)
    {
      hide AllOk, QueueOk, KeysOk, SsidsOk, Introduce, WalkOk;
      hide Peers.Forget, Peers.GuessShape, Peers.SendInit, Peers.SendKeepalive;
      WalkIsOk(pi, false, false, now);
      var s := slots[pi];
      s.GuessShape(long, now);
      assert SlotOk(cfg.peer, slots[pi]);
      if answer { AnswerInit(pi, now); }
      if !s.sentRoutes { IntroduceOurselves(pi, now); }
    }

    /** The neighbour's own entry once its INIT has come; `declared` is the SSID in it. */
    method NoteInit(pi: nat, declared: int, now: int)
      requires Live(pi) && now > 0
      modifies `learned, `dests, `links, slots
      ensures Live(pi) && sessions == old(sessions)
      ensures var m := Clamped(declared); var key := NeighbourKey(old(View()), pi, true, m);
              && KeyOk(key) && EntryMade(pi, old(links[pi].entered), key, now)
              && links == old(links)[pi := old(links[pi]).(entered := true, maxSsid := m)]
      ensures slots[pi].State() == old(slots[pi].State()).(gotInit := true)
    {
      hide AllOk, QueueOk, KeyOk, KeysOk, Informed, Joined, NeighbourKey;
      var upper := declared;
      if upper < 0 { upper := 0; }
      if upper > 15 { upper := 15; }
      slots[pi].SetGotInit();
      assert SlotOk(cfg.peer, slots[pi]);
      links := links[pi := links[pi].(maxSsid := upper)];
      EnterNeighbour(pi, now);
    }

    /** An INIT from the neighbour; `long`: six bytes or more. */
    method InitReceived(pi: nat, long: bool, declared: int, now: int)
      requires Live(pi) && now > 0
      modifies `learned, `dests, `links, slots
      ensures Live(pi) && WalkOk(WalkFor(pi, false, false, now), now)
      ensures var m := Clamped(declared); var key := NeighbourKey(old(View()), pi, true, m);
              && KeyOk(key) && EntryMade(pi, old(links[pi].entered), key, now)
              && links == old(links)[pi := old(links[pi]).(entered := true, maxSsid := m)]
      ensures slots[pi].State() == OnInit(cfg.peer, old(slots[pi].State()), long, WalkFor(pi, false, false, now), now)
    {
      hide AllOk, QueueOk, KeysOk, SsidsOk, KeyOk, WalkOk, Respond, Joined, ToldOfJoin, NeighbourKey;
      var s := slots[pi];
      var answer := (s.gotInit || s.inferred) &&
        (s.lastInit == 0 || now < s.lastInit || now - s.lastInit >= REINIT_GUARD);
      NoteInit(pi, declared, now);
      RespondToInit(pi, answer, long, now);
    }

    /** A '3+' from the neighbour. */
    method RequestReceived(pi: nat, up: bool, now: int)
      requires Live(pi) && now > 0
      modifies `learned, `dests, `links, slots
      ensures Live(pi) && WalkOk(WalkFor(pi, false, true, now), now) && KeyOk(old(OwnKey(pi)))
      ensures var done := old(links[pi].entered || slots[pi].State().Established()) || !up;
              && EntryMade(pi, done, old(OwnKey(pi)), now)
              && links == old(links)[pi := old(links[pi]).(entered := old(links[pi].entered) || !done)]
      ensures slots[pi].State() == OnRequest(cfg.peer, old(slots[pi].State()), up, WalkFor(pi, false, true, now), now)
    {
      hide AllOk, QueueOk, KeysOk, SsidsOk, KeyOk, WalkOk, OnRequest, Joined, ToldOfJoin, OwnKey;
      ghost var was := slots[pi].State();
      NotePeerEstablished(pi, up, now);
      AnswerRequest(pi, up, now);
      RequestTwice(cfg.peer, was, up, WalkFor(pi, false, true, now), now);
    }

    /** A keepalive from the neighbour; `echo`: it is to be echoed. */
    method KeepaliveReceived(pi: nat, len: nat, term: char, up: bool, echo: bool, now: int)
      requires Live(pi) && now > 0
      modifies `learned, `dests, `links, slots
      ensures Live(pi) && WalkOk(WalkFor(pi, false, false, now), now) && KeyOk(old(OwnKey(pi)))
      ensures var done := old(links[pi].entered || slots[pi].State().Established()) || !up;
              && EntryMade(pi, done, old(OwnKey(pi)), now)
              && links == old(links)[pi := old(links[pi]).(entered := old(links[pi].entered) || !done)]
      ensures slots[pi].State() ==
              OnKeepalive(cfg.peer, old(slots[pi].State()), len, term, up, echo, WalkFor(pi, false, false, now), now)
    {
      hide AllOk, QueueOk, KeysOk, SsidsOk, KeyOk, WalkOk, OnKeepalive, Joined, ToldOfJoin, OwnKey;
      ghost var was := slots[pi].State();
      NotePeerEstablished(pi, up, now);
      TakeKeepalive(pi, len, term, up, echo, now);
      KeepaliveTwice(cfg.peer, was, len, term, up, echo, WalkFor(pi, false, false, now), now);
    }

    /** A link time from the neighbour; `sampled` is our new link time, if the
        measurement it ends counted (`LinkTimer.Sample`). */
    method LinkTimeReceived(pi: nat, up: bool, sampled: Option<int>, now: int)
      requires Live(pi) && now > 0
      modifies `sessions, `learned, `dests, `links, slots
      ensures Live(pi) && KeyOk(old(OwnKey(pi)))
      ensures var done := old(links[pi].entered || slots[pi].State().Established()) || !up;
              var t := Joined(cfg, old(Tables(View(), dests)), pi, done, old(OwnKey(pi)));
              && Tables(View(), dests) == (if sampled.Some? then t.(w := Sampled(t.w, pi, sampled.value)) else t)
              && links == old(links)[pi := Anchored(cfg, old(links[pi]), sampled).(
                                             entered := old(links[pi].entered) || !done)]
              && forall p :: 0 <= p < MAX_SESSIONS && p != pi ==>
                   slots[p].State() ==
                   ToldOfSample(cfg, View(), pi, old(links[pi]), sampled, p,
                     ToldOfJoin(cfg, old(Tables(View(), dests)), pi, done, old(OwnKey(pi)), p, old(slots[p].State()),
                       now), now)
      ensures slots[pi].State() == Peers.Step(cfg.peer, old(slots[pi].State()), GotLinkTime(up, now))
    {
      hide AllOk, QueueOk, KeysOk, SsidsOk, KeyOk, Joined, ToldOfJoin, OwnKey, Peers.SendLinkTime,
        Peers.NoteEstablished, Poisoned;
      NotePeerEstablished(pi, up, now);
      if sampled.Some? { TakeSample(pi, sampled.value, now); }
      assert SlotOk(cfg.peer, slots[pi]);
      slots[pi].SendLinkTime(now);
      assert SlotOk(cfg.peer, slots[pi]);
    }

    /** The end of flex_link_time_sample: the others hear of every destination learned
        here, unless the link time stayed at its anchor. */
    method TakeSample(pi: nat, lt: int, now: int)
      requires Live(pi) && now > 0
      modifies `sessions, `links, slots
      ensures Live(pi) && View() == Sampled(old(View()), pi, lt)
      ensures links == old(links)[pi := Anchored(cfg, old(links[pi]), Some(lt))]
      ensures forall p :: 0 <= p < MAX_SESSIONS ==>
                slots[p].State() == if p == pi then old(slots[p].State())
                  else ToldOfSample(cfg, View(), pi, old(links[pi]), Some(lt), p, old(slots[p].State()), now)
    {
      hide AllOk, QueueOk, KeysOk, KeyOk, Poisoned;
      assert links[pi := links[pi]] == links;
      sessions := sessions[pi := sessions[pi].(linkTime := lt)];
      SameLearnedKeys(old(View()), View());
      if !cfg.peer.transit { return; }
      var anchor := links[pi].ltAnchor;
      var moved := if lt > anchor then lt - anchor else anchor - lt;
      if moved >= THRESHOLD_ABS {
        links := links[pi := links[pi].(ltAnchor := lt)];
        if |learned[pi]| > 0 { RewalkOthers(pi, now); }
      }
    }

    /** Everything learned at `si` decided again for every other live session, one
        neighbour after the other. */
    method RewalkOthers(si: nat, now: int)
      requires Valid() && si < MAX_SESSIONS && cfg.peer.transit && now > 0
      modifies slots
      ensures Valid()
      ensures forall p :: 0 <= p < MAX_SESSIONS ==>
                slots[p].State() == if p == si then old(slots[p].State())
                  else Poisoned(cfg, View(), si, p, old(slots[p].State()), now)
    {
      hide AllOk, KeysOk, SsidsOk, QueueOk, Walked, KeyOk, Emptied, Rows;
      KeysOfSession(View(), si);
      RowsOk(learned[si], false, |learned[si]|);
      var pi := 0;
      while pi < MAX_SESSIONS
        invariant pi <= MAX_SESSIONS && Valid()
        invariant forall p :: pi <= p < MAX_SESSIONS ==> slots[p].State() == old(slots[p].State())
        invariant forall p :: 0 <= p < pi ==>
                    slots[p].State() == if p == si then old(slots[p].State())
                      else Poisoned(cfg, View(), si, p, old(slots[p].State()), now)
      {
        assert SlotOk(cfg.peer, slots[pi]);
        if pi != si {
          ghost var was := slots[pi].State();
          if sessions[pi].active {
            CheckRowsFor(si, pi, now);
            assert SlotOk(cfg.peer, slots[pi]);
            AdvertiseDrain(pi, now);
          } else {
            InactiveUnwalked(cfg, View(), pi, was, Rows(learned[si], false, |learned[si]|), now);
            InactiveUndrained(cfg, View(), pi, was, now);
          }
        }
        pi := pi + 1;
      }
    }

    method CheckRowsFor(si: nat, pi: nat, now: int)
      requires Valid() && si < MAX_SESSIONS && pi < MAX_SESSIONS && SlotOk(cfg.peer, slots[pi])
      requires AllKeysOk(Rows(learned[si], false, |learned[si]|))
      modifies slots[pi]
      ensures Valid()
      ensures slots[pi].State() ==
              Walked(cfg, View(), pi, old(slots[pi].State()), Rows(learned[si], false, |learned[si]|), false, now).0
    {
      hide AllOk, KeysOk, SsidsOk, QueueOk, Walked, Considered, KeyOk;
      ghost var w := View();
      ghost var was := slots[pi].State();
      KeysOfSession(w, si);
      WalkedNothing(cfg, w, pi, was, false, now);
      var ri := 0;
      ghost var keys: seq<Key> := [];
      while ri < |learned[si]|
        invariant ri <= |learned[si]| && Valid() && SlotOk(cfg.peer, slots[pi])
        invariant keys == Rows(learned[si], false, ri) && AllKeysOk(keys)
        invariant slots[pi].State() == Walked(cfg, w, pi, was, keys, false, now).0
      {
        var key := learned[si][ri].key;
        if key.call != "" {
          WalkedSnoc(cfg, w, pi, was, keys, key, false, now);
          AdvertiseCheck(pi, key, false, now);
          assert SlotOk(cfg.peer, slots[pi]);
          keys := keys + [key];
        }
        ri := ri + 1;
      }
    }

    // ----- link options that change

    /** The rows through the link move by what its penalty changed by. */
    method ShiftRows(si: nat, move: int)
      modifies `dests
      ensures dests == ShiftedRows(old(dests), si, move)
    {
      if move == 0 {
        assert dests == ShiftedRows(dests, si, move);
        return;
      }
      var i := 0;
      while i < |dests|
        invariant i <= |dests| == |old(dests)|
        invariant forall k :: 0 <= k < i ==> dests[k] == Shifted(old(dests)[k], si, move)
        invariant forall k :: i <= k < |dests| ==> dests[k] == old(dests)[k]
      {
        var d := dests[i];
        if d.via == si && !d.isInf && d.rtt > 0 && d.rtt < INFINITY {
          var r := d.rtt + move;
          if r < 1 { r := 1; }
          if r >= INFINITY { r := INFINITY - 1; }
          dests := dests[i := d.(rtt := r)];
        }
        i := i + 1;
      }
    }

    /** flex_link_opts_changed: the rows are moved, the others hear of every
        destination learned here, and this neighbour of everything when '=' came or
        went. */
    method LinkOptsChanged(si: nat, options: set<LinkOpt>, now: int)
      requires Live(si) && now > 0
      modifies `opts, `dests, slots
      ensures Live(si) && Tables(View(), dests) == Reoptioned(old(Tables(View(), dests)), si, options)
      ensures forall p :: 0 <= p < MAX_SESSIONS && p != si ==>
                slots[p].State() == Poisoned(cfg, View(), si, p, old(slots[p].State()), now)
      ensures WalkOk(WalkFor(si, false, false, now), now)
      ensures slots[si].State() ==
              if cfg.peer.transit && (OwnOnly in old(opts[si]) <==> OwnOnly !in options)
              then Peers.Step(cfg.peer, old(slots[si].State()), Changed(WalkFor(si, false, false, now), now))
              else old(slots[si].State())
    {
      hide AllOk, QueueOk, KeysOk, SsidsOk, KeyOk, Walked, Emptied, Rows, Peers.Step, WalkOk, PenaltyMove;
      var before := opts[si];
      opts := opts[si := options];
      SameLearnedKeys(old(View()), View());
      ShiftRows(si, PenaltyMove(before, options));
      WalkIsOk(si, false, false, now);
      if !cfg.peer.transit { return; }
      RewalkOthers(si, now);
      assert SlotOk(cfg.peer, slots[si]);
      if (OwnOnly in before) != (OwnOnly in options) { WalkAndDrain(si, now); }
    }

    method WalkAndDrain(pi: nat, now: int)
      requires Live(pi) && now > 0
      modifies slots[pi]
      ensures Live(pi) && WalkOk(WalkFor(pi, false, false, now), now)
      ensures slots[pi].State() ==
              Peers.Step(cfg.peer, old(slots[pi].State()), Changed(WalkFor(pi, false, false, now), now))
    {
      hide AllOk, QueueOk, KeysOk, SsidsOk, CheckAll, DrainPeer, Emptied, WalkOk;
      ghost var was := slots[pi].State();
      var walked, queued := WalkForPeer(pi, false, false, now);
      AdvertiseDrain(pi, now);
      EmptiedUp(cfg, View(), pi, CheckAll(cfg.peer, was, WalkFor(pi, false, false, now), now).0, now);
    }

    /** What follows once a keepalive has established the session if it can. */
    method TakeKeepalive(pi: nat, len: nat, term: char, up: bool, echo: bool, now: int)
      requires Live(pi) && now > 0 && (up ==> slots[pi].State().Established())
      modifies slots[pi]
      ensures Live(pi) && WalkOk(WalkFor(pi, false, false, now), now)
      ensures slots[pi].State() ==
              OnKeepalive(cfg.peer, old(slots[pi].State()), len, term, up, echo, WalkFor(pi, false, false, now), now)
    {
      hide AllOk, QueueOk, KeysOk, SsidsOk, Introduce, WalkOk, Peers.SendKeepalive, Peers.SendLinkTime;
      WalkIsOk(pi, false, false, now);
      var s := slots[pi];
      if 2 <= len <= KA_LEN { s.SetShape(len, term); }
      s.Greet(echo, now);
      assert SlotOk(cfg.peer, slots[pi]);
      if !s.sentRoutes && (s.gotInit || s.inferred) { IntroduceOurselves(pi, now); }
    }

    /** Our own record and the direct neighbours again. */
    method Refresh(pi: nat, now: int)
      requires Live(pi) && now > 0
      modifies slots[pi]
      ensures Live(pi) && WalkOk(WalkFor(pi, true, true, now), now)
      ensures slots[pi].State() ==
              Neighbours(cfg.peer, Peers.SendOwn(old(slots[pi].State()).(lastAdvert := now), false, now),
                WalkFor(pi, true, true, now), now)
    {
      hide AllOk, QueueOk, KeysOk, SsidsOk, Neighbours, WalkOk;
      slots[pi].SetLastAdvert(now);
      slots[pi].SendOwn(false, now);
      assert SlotOk(cfg.peer, slots[pi]);
      AdvertiseNeighbours(pi, now);
    }

    /** The timer's turn for one session. */
    method TimerTurn(pi: nat, beat: bool, now: int)
      requires Live(pi) && now > 0
      modifies slots[pi]
      ensures Live(pi) && WalkOk(WalkFor(pi, true, true, now), now) && WalkOk(WalkFor(pi, false, false, now), now)
      ensures slots[pi].State() ==
              OnTimer(cfg.peer, old(slots[pi].State()), beat, WalkFor(pi, true, true, now),
                WalkFor(pi, false, false, now), now)
    {
      hide AllOk, QueueOk, KeysOk, SsidsOk, Introduce, Neighbours, WalkOk, DrainPeer;
      hide Peers.SendOwn, Peers.SendKeepalive, Peers.SendLinkTime;
      WalkIsOk(pi, true, true, now);
      WalkIsOk(pi, false, false, now);
      var s := slots[pi];
      if beat { s.Greet(true, now); }
      assert SlotOk(cfg.peer, slots[pi]);
      if cfg.peer.transit && s.sentRoutes && (!cfg.peer.quiesce || !s.quiesced) && !s.eobPending &&
        now - s.lastAdvert >= ADVERT_INTERVAL {
        Refresh(pi, now);
      }
      if cfg.peer.transit && !s.sentRoutes && (s.gotInit || s.inferred) {
        IntroduceOurselves(pi, now);
      }
      AdvertiseDrain(pi, now);
      assert SlotOk(cfg.peer, slots[pi]);
    }

    /** The neighbour's link restarted under the session. */
    method LinkRestarted(pi: nat, now: int)
      requires Live(pi)
      modifies slots[pi]
      ensures Live(pi)
      ensures slots[pi].State() == Peers.Step(cfg.peer, old(slots[pi].State()), Restarted(now))
    {
      hide AllOk, QueueOk, KeysOk, SsidsOk;
      if !slots[pi].quiesced { return; }
      slots[pi].Forget(Item.LinkRestarted(now));
      EmptyQueueOk();
      assert SlotOk(cfg.peer, slots[pi]);
    }

    /** FlexNet_InitSession for a link that has its session already. */
    method InitAgain(pi: nat, now: int)
      requires Live(pi)
      modifies slots[pi]
      ensures Live(pi)
      ensures slots[pi].State() == Peers.Step(cfg.peer, old(slots[pi].State()), Rehandshake(now))
    {
      hide AllOk, QueueOk, KeysOk, SsidsOk;
      if slots[pi].gotInit || slots[pi].inferred { return; }
      slots[pi].ClearSentRoutes();
      slots[pi].SendInit(now);
      slots[pi].SendKeepalive(now);
      assert SlotOk(cfg.peer, slots[pi]);
    }
  }

  function Clamped(ssid: int): (r: int)
    ensures 0 <= r <= 15 && (0 <= ssid <= 15 ==> r == ssid) && (ssid > 15 ==> r == 15) && (ssid < 0 ==> r == 0)
  {
    if ssid < 0 then 0 else if ssid > 15 then 15 else ssid
  }

  lemma {:induction false} RequestTwice(cfg: Config, p: Peer, up: bool, walk: Walk, now: int)
    requires AllOk(p.account.q.advs) && WalkOk(walk, now)
    ensures OnRequest(cfg, Peers.NoteEstablished(p, up), up, walk, now) == OnRequest(cfg, p, up, walk, now)
  {
    hide AllOk, WalkOk, Answer, Peers.SendOwn;
  }

  lemma {:induction false} KeepaliveTwice(cfg: Config, p: Peer, len: nat, term: char, up: bool, echo: bool, walk: Walk,
                                          now: int)
    requires AllOk(p.account.q.advs) && WalkOk(walk, now)
    ensures OnKeepalive(cfg, Peers.NoteEstablished(p, up), len, term, up, echo, walk, now) ==
            OnKeepalive(cfg, p, len, term, up, echo, walk, now)
  {
    hide AllOk, WalkOk, Introduce, Peers.SendLinkTime;
  }

  lemma {:induction false} OwedOk(q: Queue)
    requires QueueOk(q)
    ensures QueueOk(q.(eobPending := true))
  {
  }

  lemma {:induction false} NothingVisited(cfg: NodeConfig, w: World, p: nat, peer: Peer, directOnly: bool, force: bool,
                                          now: int)
    requires w.Valid() && p < MAX_SESSIONS && AllOk(peer.account.q.advs)
    ensures Visits(w, p, directOnly, 0) == [] && AllKeysOk([]) &&
            Walked(cfg, w, p, peer, [], force, now) == (peer, false)
  {
    WalkedNothing(cfg, w, p, peer, force, now);
  }

  lemma {:induction false} VisitsStep(w: World, p: nat, directOnly: bool, n: nat)
    requires w.Valid() && n < MAX_SESSIONS
    ensures Visits(w, p, directOnly, n + 1) == Visits(w, p, directOnly, n)
              + (if n != p && w.sessions[n].active then Rows(w.learned[n], directOnly, |w.learned[n]|) else [])
  {
  }

  lemma {:induction false} NoRows(ls: seq<Learned>, directOnly: bool)
    ensures Rows(ls, directOnly, 0) == []
  {
  }

  lemma {:induction false} RowsStep(ls: seq<Learned>, directOnly: bool, n: nat)
    requires n < |ls|
    ensures Rows(ls, directOnly, n + 1) ==
            Rows(ls, directOnly, n) +
              (if ls[n].key.call != "" && (directOnly ==> ls[n].direct) then [ls[n].key] else [])
    ensures Rows(ls, directOnly, n) + [] == Rows(ls, directOnly, n)
  {
  }

  lemma {:induction false} WalkedOpen(cfg: NodeConfig, w: World, p: nat, peer: Peer, keys: seq<Key>, force: bool,
                                      now: int)
    requires w.Valid() && p < MAX_SESSIONS && AllKeysOk(keys) && AllOk(peer.account.q.advs)
    requires w.sessions[p].active && w.sessions[p].linked
    ensures WalkOk(Cases(cfg, w, p, keys, force, now), now)
    ensures Walked(cfg, w, p, peer, keys, force, now) ==
            CheckAll(cfg.peer, peer, Cases(cfg, w, p, keys, force, now), now)
  {
    CasesOk(cfg, w, p, keys, force, now);
  }

  lemma {:induction false} SameKeys(w: World, v: World)
    requires w.Valid() && v.Valid() && v.learned == w.learned && KeysOk(w)
    ensures KeysOk(v)
  {
  }
}
