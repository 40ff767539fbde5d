/** Choices the node makes about its slots: which one a new session takes, whose learned
  * table it starts with, and when a link time is news.
  */
module NodeFacts {
  import opened Base
  import opened Text
  import opened World
  import opened Routing
  import opened FlexNodes

  /** The slot is the new session's own or idle, and holds what the neighbour of that call
      left there no more than ten minutes ago. */
  predicate Left(w: World, links: seq<LinkState>, s: nat, call: string, now: int, si: int)
    requires w.Valid() && |links| == MAX_SESSIONS
  {
    && 0 <= si < MAX_SESSIONS && (si == s || !w.sessions[si].active)
    && |w.learned[si]| > 0 && SameText(links[si].owner, call)
    && (links[si].diedAt == 0 || now - links[si].diedAt <= 600)
  }

  lemma {:induction false} AdoptedFrom(w: World, links: seq<LinkState>, s: nat, call: string, now: int, si: nat)
    requires w.Valid() && |links| == MAX_SESSIONS && si <= MAX_SESSIONS
    ensures var from := AdoptFrom(w, links, s, call, now, si);
            && (from.Some? ==> from.value >= si && Left(w, links, s, call, now, from.value))
            && forall j :: si <= j < (if from.Some? then from.value else MAX_SESSIONS) ==>
                 !Left(w, links, s, call, now, j)
    decreases MAX_SESSIONS - si
  {
    hide SameText;
    if si < MAX_SESSIONS && !Adoptable(w, links, s, call, now, si) { AdoptedFrom(w, links, s, call, now, si + 1); }
  }

  /** A new session takes over the first such table, and starts empty only if there is
      none or its neighbour has no call. */
  lemma {:induction false} AdoptionRule(w: World, links: seq<LinkState>, s: nat, call: string, now: int)
    requires w.Valid() && |links| == MAX_SESSIONS && s < MAX_SESSIONS
    ensures var from := Adopted(w, links, s, call, now);
            && (from.Some? ==>
                  && call != "" && Left(w, links, s, call, now, from.value)
                  && forall j :: 0 <= j < from.value ==> !Left(w, links, s, call, now, j))
            && (from.None? ==> call == "" || forall j :: 0 <= j < MAX_SESSIONS ==> !Left(w, links, s, call, now, j))
  {
    AdoptedFrom(w, links, s, call, now, 0);
  }

  /** The table's owner, and the link time the others were told of, move with it. */
  lemma {:induction false} OwnerMovesAlong(links: seq<LinkState>, s: nat, from: Option<nat>, call: string)
    requires |links| == MAX_SESSIONS && s < MAX_SESSIONS && (from.Some? ==> from.value < MAX_SESSIONS)
    ensures var r := Inherit(links, s, from, call);
            && r[s].owner == call && r[s].diedAt == 0 && !r[s].entered
            && r[s].ltAnchor == (if from.Some? then links[from.value].ltAnchor else 0)
            && (from.Some? && from.value != s ==> r[from.value].owner == "" && r[from.value].ltAnchor == 0)
            && forall q :: 0 <= q < MAX_SESSIONS && q != s && from != Some(q) ==> r[q] == links[q]
  {
  }

  /** A session takes the first slot that is free. */
  lemma {:induction false} FirstSlotTaken(sessions: seq<Session>, from: nat)
    requires from <= |sessions|
    ensures var i := FreeSlot(sessions, from);
            && (i < |sessions| ==> !sessions[i].active) && forall j :: from <= j < i ==> sessions[j].active
    decreases |sessions| - from
  {
    if from < |sessions| && sessions[from].active { FirstSlotTaken(sessions, from + 1); }
  }

  /** With transit on the others have always been told of the latest link time: any other
      one is news, and becomes the one they were told of. */
  lemma {:induction false} AnchorIsLatest(cfg: NodeConfig, x: LinkState, lt: int)
    ensures AnchorMoves(cfg, x, Some(lt)) <==> cfg.peer.transit && lt != x.ltAnchor
    ensures cfg.peer.transit ==> Anchored(cfg, x, Some(lt)).ltAnchor == lt
    ensures !AnchorMoves(cfg, x, None) && Anchored(cfg, x, None) == x
  {
  }
}
