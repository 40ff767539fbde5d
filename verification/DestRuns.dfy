/** The destination table over whole runs: records, sessions that come and go, and
  * link times and link options that change.
  */
module DestRuns {
  import opened Base
  import opened Text
  import opened World
  import opened DestTable

  datatype Event = Merged(ours: bool, r: Record, s: nat)
                 | SessionClosed(s: nat)
                 | SessionOpened(s: nat, session: Session, opts: set<LinkOpt>, from: Option<nat>)
                 | LinkSampled(s: nat, lt: int)
                 | OptsChanged(s: nat, opts: set<LinkOpt>)
                 | NeighbourEntered(ours: bool, s: nat, gotInit: bool, maxSsid: int)

  predicate Possible(t: Tables, e: Event)
  {
    t.w.Valid() && e.s < MAX_SESSIONS &&
    match e
    case Merged(_, r, s) => InSession(t, r, s)
    case SessionClosed(_) => true
    case SessionOpened(s, _, _, from) => MayOpen(t, s, from)
    case LinkSampled(s, _) => t.w.sessions[s].active
    case OptsChanged(s, _) => ShortLink(t.w, s)
    case NeighbourEntered(_, s, _, _) => t.w.sessions[s].active
  }

  function Step(t: Tables, e: Event): (u: Tables)
    requires Possible(t, e)
    ensures u.w.Valid()
  {
    match e
    case Merged(ours, r, s) => Merge(t, true, ours, r, s).0
    case SessionClosed(s) => Close(t, true, s)
    case SessionOpened(s, session, opts, from) => Open(t, s, session, opts, from)
    case LinkSampled(s, lt) => t.(w := Sampled(t.w, s, lt))
    case OptsChanged(s, opts) => Reoptioned(t, s, opts)
    case NeighbourEntered(ours, s, gotInit, maxSsid) =>
      Entered(t, true, ours, s, NeighbourKey(t.w, s, gotInit, maxSsid))
  }

  /** What decides, before the event, whether every row stays minimal. */
  predicate Keeps(t: Tables, e: Event)
    requires Possible(t, e)
  {
    match e
    case Merged(ours, r, s) => MergeKeeps(t, ours, r, s)
    case SessionClosed(_) => true
    case SessionOpened(s, session, opts, from) => OpenKeeps(t, s, session, opts, from)
    case LinkSampled(s, lt) => SampleKeeps(t, s, lt)
    case OptsChanged(s, opts) => OptsKeep(t, s, opts)
    case NeighbourEntered(ours, s, gotInit, maxSsid) =>
      MergeKeeps(t, ours, Record(NeighbourKey(t.w, s, gotInit, maxSsid), 1), s)
  }

  /** The tables after each event of a run, or None once an event is not possible. */
  function Run(t: Tables, es: seq<Event>): Option<Tables>
  {
    if es == [] then Some(t)
    else
      match Run(t, es[..|es| - 1])
      case None => None
      case Some(u) => if Possible(u, es[|es| - 1]) then Some(Step(u, es[|es| - 1])) else None
  }

  /** Every event keeps the frame, whether or not it passes its guard. */
  lemma {:induction false} EventKeepsFrame(t: Tables, e: Event)
    requires Framed(t) && Possible(t, e)
    ensures Framed(Step(t, e))
  {
    hide Framed, Merge, Close, Open, Reoptioned, Flagged;
    match e {
      case Merged(ours, r, s) => MergeKeepsFrame(t, ours, r, s);
      case SessionClosed(s) => CloseKeepsFrame(t, s);
      case SessionOpened(s, session, opts, from) => OpenKeepsFrame(t, s, session, opts, from);
      case LinkSampled(s, lt) => SampleKeepsFrame(t, s, lt);
      case OptsChanged(s, opts) => OptsKeepFrame(t, s, opts);
      case NeighbourEntered(ours, s, gotInit, maxSsid) =>
        var key := NeighbourKey(t.w, s, gotInit, maxSsid);
        MergeKeepsFrame(t, ours, Record(key, 1), s);
        FlagKeepsMinimal(Merge(t, true, ours, Record(key, 1), s).0, s, key);
    }
  }

  /** From a minimal table, every row holds what a computation from scratch gives after
      the event exactly when the event passes its guard; then the table is minimal. */
  lemma {:induction false} EventKeepsMinimal(t: Tables, e: Event)
    requires Minimal(t) && Possible(t, e)
    ensures Recomputed(Step(t, e)) <==> Keeps(t, e)
    ensures AllMinimal(Step(t, e)) <==> Keeps(t, e)
    ensures Framed(Step(t, e))
  {
    hide AllMinimal, Framed, Recomputed, MergeKeeps, SampleKeeps, OptsKeep, OpenKeeps;
    hide Merge, Close, Open, Reoptioned, Flagged;
    match e {
      case Merged(ours, r, s) => MergeKeepsMinimal(t, ours, r, s);
      case SessionClosed(s) => CloseKeepsMinimal(t, s);
      case SessionOpened(s, session, opts, from) => OpenKeepsMinimal(t, s, session, opts, from);
      case LinkSampled(s, lt) => SampleKeepsMinimal(t, s, lt);
      case OptsChanged(s, opts) => OptsKeepMinimal(t, s, opts);
      case NeighbourEntered(ours, s, gotInit, maxSsid) =>
        var key := NeighbourKey(t.w, s, gotInit, maxSsid);
        MergeKeepsMinimal(t, ours, Record(key, 1), s);
        FlagKeepsMinimal(Merge(t, true, ours, Record(key, 1), s).0, s, key);
    }
  }

  /** Every event of the run passes its guard when it comes. */
  predicate AllKeep(t: Tables, es: seq<Event>)
    requires Run(t, es).Some?
  {
    es == [] ||
    (var n := |es| - 1; AllKeep(t, es[..n]) && Keeps(Run(t, es[..n]).value, es[n]))
  }

  /** Every row holds what a computation from scratch gives, after every event of the
      run. */
  predicate RecomputedThroughout(t: Tables, es: seq<Event>)
    requires Run(t, es).Some?
  {
    Recomputed(Run(t, es).value) && (es == [] || RecomputedThroughout(t, es[..|es| - 1]))
  }

  /** Incremental equals recomputed. Over any run of records, session closes, session
      starts, link-time samples and option changes, with transit on, every row holds
      after every event what a computation from scratch gives, exactly when every
      event passes its guard. */
  lemma {:induction false} IncrementalIsRecomputed(t: Tables, es: seq<Event>)
    requires Minimal(t) && Run(t, es).Some?
    ensures RecomputedThroughout(t, es) <==> AllKeep(t, es)
    ensures AllKeep(t, es) ==> Minimal(Run(t, es).value) && Recomputed(Run(t, es).value)
  {
    hide AllMinimal, Framed, Keeps, Possible, Step, Recomputed;
    if es == [] {
      assert Run(t, es).value == t;
      MinimalIsRecomputed(t);
    } else {
      var n := |es| - 1;
      IncrementalIsRecomputed(t, es[..n]);
      if AllKeep(t, es[..n]) {
        EventKeepsMinimal(Run(t, es[..n]).value, es[n]);
      }
    }
  }

  /** The incumbent wins ties: if the next hop a row had still makes the cheapest
      offer after an event that keeps the table minimal, the row keeps it. */
  lemma {:induction false} IncumbentStays(t: Tables, e: Event, i: nat)
    requires Minimal(t) && Possible(t, e) && Keeps(t, e) && i < |t.dests|
    requires var d := t.dests[i];
             d.rtt < INFINITY && CostVia(Step(t, e).w, d.via, d.key) == Cheapest(Step(t, e).w, d.key) < INFINITY
    ensures i < |Step(t, e).dests| && Step(t, e).dests[i].via == t.dests[i].via
  {
    hide MinCost, Minimal, MergeKeeps, SampleKeeps, OptsKeep, OpenKeeps, Merge, CostVia, WithFlag, ReelectedVia;
    var d := t.dests[i];
    FiniteVia(t, i);
    match e {
      case SessionOpened(s, session, opts, from) =>
      case LinkSampled(s, lt) =>
      case OptsChanged(s, opts) =>
      case SessionClosed(s) => ClosedOffers(t.w, s, d.key, d.via);
      case Merged(ours, r, s) => MergeKeepsIncumbent(t, ours, r, s, i);
      case NeighbourEntered(ours, s, gotInit, maxSsid) =>
        var key := NeighbourKey(t.w, s, gotInit, maxSsid);
        FlaggedCheapest(Merge(t, true, ours, Record(key, 1), s).0, s, key, d);
        MergeKeepsIncumbent(t, ours, Record(key, 1), s, i);
    }
  }

  lemma {:induction false} FiniteVia(t: Tables, i: nat)
    requires Minimal(t) && i < |t.dests| && t.dests[i].rtt < INFINITY
    ensures 0 <= t.dests[i].via < MAX_SESSIONS && t.w.sessions[t.dests[i].via].active
  {
    FiniteRow(t.w, t.dests[i]);
  }

  lemma {:induction false} FlaggedCheapest(t: Tables, s: nat, key: Key, d: Dest)
    requires t.w.Valid() && s < MAX_SESSIONS && 0 <= d.via < MAX_SESSIONS
    ensures var v := WithFlag(t, s, key).w;
            CostVia(v, d.via, d.key) == CostVia(t.w, d.via, d.key) && Cheapest(v, d.key) == Cheapest(t.w, d.key)
    ensures WithFlag(t, s, key).dests == t.dests
  {
    hide CostVia, OfferedRtt, MinCost, Flagged;
    var v := WithFlag(t, s, key).w;
    forall si | 0 <= si < MAX_SESSIONS
      ensures CostVia(v, si, d.key) == CostVia(t.w, si, d.key) && OfferedRtt(v, si, d.key) == OfferedRtt(t.w, si, d.key)
    {
      FlaggedOffers(t.w, s, key, d.key, si);
    }
    SameOffersSameMin(v, t.w, d.key, MAX_SESSIONS);
  }

  lemma {:induction false} MergeKeepsIncumbent(t: Tables, ours: bool, r: Record, s: nat, i: nat)
    requires Minimal(t) && InSession(t, r, s) && MergeKeeps(t, ours, r, s) && i < |t.dests| && t.dests[i].rtt < INFINITY
    requires 0 <= t.dests[i].via < MAX_SESSIONS
    requires var d, u := t.dests[i], Merge(t, true, ours, r, s).0;
             u.w.Valid() && CostVia(u.w, d.via, d.key) == Cheapest(u.w, d.key) < INFINITY
    ensures var u := Merge(t, true, ours, r, s).0; i < |u.dests| && u.dests[i].via == t.dests[i].via
  {
    hide MinCost, HasRow, Covered, CostVia, OfferedRtt, Taught, Teaches;
    var d := t.dests[i];
    if !ours && r.rtt != 0 && FindDest(t.dests, r.key, 0) == i {
      if d.via == s {
        ReelectedIsMinimal(Taught(t.w, s, r), RowOf(t.w, s, r, d.key));
      } else if !Replaces(t, r, s) {
      } else if Teaches(t.w, s, r) {
        RivalNotCheaper(t, r, s, i);
      } else if r.Withdrawal() {
        WithdrawalNotCheaper(t.w, s, r, d);
      }
    }
  }

  lemma {:induction false} RivalNotCheaper(t: Tables, r: Record, s: nat, i: nat)
    requires Minimal(t) && InSession(t, r, s) && r.rtt > 0 && i < |t.dests| && FindDest(t.dests, r.key, 0) == i
    requires Teaches(t.w, s, r) && SameSpelling(t.dests, r.key)
    requires var d := t.dests[i]; var v := Taught(t.w, s, r);
             d.via != s && d.rtt < INFINITY && CostVia(v, d.via, d.key) == Cheapest(v, d.key)
    ensures CostHere(t.w, OptsCost(t.w.opts[s], r.rtt), s) >= CostHere(t.w, t.dests[i].rtt, t.dests[i].via)
  {
    hide MinCost, CostVia, OfferedRtt, Taught, Teaches, Covered, DistinctRows;
    var d, v := t.dests[i], Taught(t.w, s, r);
    assert RowMinimal(t.w, d);
    FiniteRow(t.w, d);
    TaughtOffers(t.w, s, r, d.key, d.via);
    TaughtOffers(t.w, s, r, d.key, s);
    MinCostIsMinimum(v, d.key, MAX_SESSIONS);
  }

  // ----- runs that miss a guard

  const DOWN := Session(false, false, "", 0, 0, 0)
  const FIRST := Session(true, true, "A", 0, 1, 2)
  const SECOND := Session(true, true, "B", 0, 1, 2)
  const UPPER := Key("N", 0, 0)
  const LOWER := Key("n", 0, 0)

  const NOTHING :=
    Tables(World([DOWN, DOWN, DOWN, DOWN, DOWN, DOWN, DOWN, DOWN], [[], [], [], [], [], [], [], []],
                 [{}, {}, {}, {}, {}, {}, {}, {}]), [])

  /** The first two sessions are up and have taught these entries. */
  function Two(first: seq<Learned>, second: seq<Learned>, ds: seq<Dest>): Tables
  {
    Tables(World([FIRST, SECOND, DOWN, DOWN, DOWN, DOWN, DOWN, DOWN], [first, second, [], [], [], [], [], []],
                 NOTHING.w.opts), ds)
  }

  const UP_ONE: Event := SessionOpened(0, FIRST, {}, None)
  const UP_TWO: Event := SessionOpened(1, SECOND, {}, None)
  const FROM_ONE: Event := Merged(false, Record(UPPER, 10), 0)

  /** Two neighbours come up, and the first offers a destination at cost 10. */
  const TWO_NEIGHBOURS := [UP_ONE, UP_TWO, FROM_ONE]

  lemma {:induction false} RunSnoc(t: Tables, es: seq<Event>, e: Event)
    requires Run(t, es).Some? && Possible(Run(t, es).value, e)
    ensures Run(t, es + [e]) == Some(Step(Run(t, es).value, e))
  {
    assert (es + [e])[..|es|] == es;
  }

  lemma {:induction false} NothingIsMinimal()
    ensures Minimal(NOTHING)
  {
  }

  lemma {:induction false} TwoNeighbours()
    ensures Run(NOTHING, TWO_NEIGHBOURS) == Some(Two([Learned(UPPER, 10, false)], [], [Dest(UPPER, 10, false, 1, 0)]))
  {
    hide Merge;
    assert [] + [UP_ONE] == [UP_ONE] && [UP_ONE] + [UP_TWO] == [UP_ONE, UP_TWO];
    assert [UP_ONE, UP_TWO] + [FROM_ONE] == TWO_NEIGHBOURS;
    var t1, t2 := Step(NOTHING, UP_ONE), Two([], [], []);
    RunSnoc(NOTHING, [], UP_ONE);
    assert Step(t1, UP_TWO) == t2;
    RunSnoc(NOTHING, [UP_ONE], UP_TWO);
    RunSnoc(NOTHING, [UP_ONE, UP_TWO], FROM_ONE);
    FirstRecord();
  }

  lemma {:induction false} FirstRecord()
    ensures Possible(Two([], [], []), FROM_ONE)
    ensures Step(Two([], [], []), FROM_ONE) == Two([Learned(UPPER, 10, false)], [], [Dest(UPPER, 10, false, 1, 0)])
  {
    var t := Two([], [], []);
    assert FindDest(t.dests, UPPER, 0) == 0 && LearnedWith([], Record(UPPER, 10)) == [Learned(UPPER, 10, false)];
    assert [] + [Dest(UPPER, 10, false, 1, 0)] == [Dest(UPPER, 10, false, 1, 0)];
    assert t.w.learned[0 := [Learned(UPPER, 10, false)]] == Two([Learned(UPPER, 10, false)], [], []).w.learned;
  }

  lemma {:induction false} SameLetter()
    ensures SameKey(UPPER, LOWER) && SameKey(UPPER, UPPER)
  {
    assert LowerCase("N") == LowerCase("n") == "n";
  }

  /** The same destination spelled with a small letter, cheaper, from the second
      neighbour: the row of the first spelling is taken over, although the second
      neighbour offers nothing under it. */
  lemma {:induction false} OtherSpellingTakesOver()
    ensures var es := TWO_NEIGHBOURS + [Merged(false, Record(LOWER, 1), 1)];
            Run(NOTHING, es).Some? &&
            var u := Run(NOTHING, es).value; |u.dests| == 1 && u.w.Valid() && var d := u.dests[0];
            && d.key == UPPER && d.via == 1 && Report(u.w, 1, UPPER).None? && Report(u.w, 0, UPPER).Some?
            && !RowRecomputed(u.w, d)
    ensures Minimal(NOTHING)
  {
    hide Run, MinCost;
    NothingIsMinimal();
    TwoNeighbours();
    var t := Two([Learned(UPPER, 10, false)], [], [Dest(UPPER, 10, false, 1, 0)]);
    var e: Event := Merged(false, Record(LOWER, 1), 1);
    RunSnoc(NOTHING, TWO_NEIGHBOURS, e);
    SameLetter();
    assert FindDest(t.dests, LOWER, 0) == 0;
    var u := Step(t, e);
    assert u.dests == [Dest(UPPER, 1, false, 1, 1)];
    assert u.w.learned[1] == [Learned(LOWER, 1, false)] && u.w.learned[0] == [Learned(UPPER, 10, false)];
    assert OfferedRtt(u.w, 1, UPPER) == INFINITY && CostHere(u.w, 1, 1) == 3;
    forall si | 0 <= si < MAX_SESSIONS ensures CostVia(u.w, si, UPPER) >= 12 { }
    MinCostIsMinimum(u.w, UPPER, MAX_SESSIONS);
  }

  /** Then the second neighbour makes the same offer. */
  const BOTH_OFFER := TWO_NEIGHBOURS + [Merged(false, Record(UPPER, 10), 1)]

  lemma {:induction false} BothOffer()
    ensures var ls := [Learned(UPPER, 10, false)];
            Run(NOTHING, BOTH_OFFER) == Some(Two(ls, ls, [Dest(UPPER, 10, false, 1, 0)]))
  {
    hide Run;
    TwoNeighbours();
    var ls := [Learned(UPPER, 10, false)];
    var t := Two(ls, [], [Dest(UPPER, 10, false, 1, 0)]);
    var e: Event := Merged(false, Record(UPPER, 10), 1);
    RunSnoc(NOTHING, TWO_NEIGHBOURS, e);
    SameLetter();
    assert FindDest(t.dests, UPPER, 0) == 0;
    assert LearnedWith([], Record(UPPER, 10)) == ls;
    assert t.w.learned[1 := ls] == Two(ls, ls, []).w.learned;
    assert Step(t, e).dests == t.dests;
  }

  /** The same offer from both neighbours, then the link of the one in use gets
      slower: the row stays with it although the other is cheaper now. */
  lemma {:induction false} SlowerLinkStays()
    ensures var es := BOTH_OFFER + [LinkSampled(0, 100)];
            Run(NOTHING, es).Some? &&
            var u := Run(NOTHING, es).value; |u.dests| == 1 && u.w.Valid() && var d := u.dests[0];
            && d.key == UPPER && d.via == 0 && CostHere(u.w, d.rtt, d.via) == 110 && CostVia(u.w, 1, UPPER) == 12
            && !RowRecomputed(u.w, d)
    ensures Minimal(NOTHING)
  {
    hide Run, MinCost;
    NothingIsMinimal();
    BothOffer();
    var t, e: Event := Run(NOTHING, BOTH_OFFER).value, LinkSampled(0, 100);
    RunSnoc(NOTHING, BOTH_OFFER, e);
    var u := Step(t, e);
    assert OfferedRtt(u.w, 1, UPPER) == 10;
    MinCostIsMinimum(u.w, UPPER, MAX_SESSIONS);
    assert CostVia(u.w, 1, UPPER) == 12;
  }

  /** The same when the link in use is given the penalty. */
  lemma {:induction false} PenalisedLinkStays()
    ensures var es := BOTH_OFFER + [OptsChanged(0, {Penalty})];
            Run(NOTHING, es).Some? &&
            var u := Run(NOTHING, es).value; |u.dests| == 1 && u.w.Valid() && var d := u.dests[0];
            && d.key == UPPER && d.via == 0 && CostHere(u.w, d.rtt, d.via) == 2012 && CostVia(u.w, 1, UPPER) == 12
            && !RowRecomputed(u.w, d)
    ensures Minimal(NOTHING)
  {
    hide Run, MinCost;
    NothingIsMinimal();
    BothOffer();
    var t, e: Event := Run(NOTHING, BOTH_OFFER).value, OptsChanged(0, {Penalty});
    RunSnoc(NOTHING, BOTH_OFFER, e);
    var u := Step(t, e);
    assert OfferedRtt(u.w, 1, UPPER) == 10;
    MinCostIsMinimum(u.w, UPPER, MAX_SESSIONS);
    assert CostVia(u.w, 1, UPPER) == 12;
  }
}
