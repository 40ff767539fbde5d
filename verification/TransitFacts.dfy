/** When a transit node does what: which control bytes count, how long circuits last,
  * when a frame is extended, dropped, left alone, and where it goes.
  */
module TransitFacts {
  import opened Base
  import opened AxFrame
  import opened Circuits
  import opened Transit
  import opened TransitSteps
  import opened TransitRuns
  import opened CircuitFacts

  // ----- control bytes

  /** The frames that open and close a connection, with the poll/final bit clear or
      set (section 2.3.4 of AX.25 v2.0, and SABME); all others do neither. */
  lemma {:induction false} ControlBytes(ctl: bv8)
    ensures CtlKind(ctl) == Sabm <==> ctl in {0x2F, 0x3F, 0x6F, 0x7F}
    ensures CtlKind(ctl) == Disc <==> ctl in {0x43, 0x53}
    ensures CtlKind(ctl) == Ua <==> ctl in {0x63, 0x73}
    ensures CtlKind(ctl) == Dm <==> ctl in {0x0F, 0x1F}
  {
  }

  // ----- how long a circuit lasts

  /** The first completed teardown since the last SABM. */
  predicate FirstTeardown(ks: seq<(Kind, int)>, j: nat)
    requires j < |ks|
  {
    TornDown(ks, j) && forall i :: 0 <= i < j ==> !TornDown(ks, i)
  }

  lemma {:induction false} LastCarried(c: Circuit, ks: seq<(Kind, int)>)
    requires ks != []
    ensures CarryAll(c, ks).lastUsed == ks[|ks| - 1].1
  {
  }

  lemma {:induction false} ClosedAtTeardown(c: Circuit, ks: seq<(Kind, int)>, j: nat)
    requires !c.closing && c.closedAt == 0 && j < |ks| && FirstTeardown(ks, j)
    requires forall k :: 0 <= k < |ks| ==> ks[k].1 != 0
    ensures CarryAll(c, ks).closedAt == ks[j].1
    decreases |ks|
  {
    hide TornDown;
    var n := |ks| - 1;
    var init := ks[..n];
    forall i | 0 <= i < n ensures TornDown(ks, i) ==> TornDown(init, i) {
      TornDownBefore(ks, i);
    }
    ClosedIffTornDown(c, init);
    if j < n {
      TornDownBefore(ks, j);
      forall i | 0 <= i < j ensures !TornDown(init, i) {
        if TornDown(init, i) { TornDownAfter(ks, i, j); }
      }
      ClosedAtTeardown(c, init, j);
      NotReopened(ks, j);
    } else {
      ClosedIffTornDown(c, ks);
      forall i | 0 <= i < n ensures !TornDown(init, i) {
        if TornDown(init, i) { TornDownAfter(ks, i, n); }
      }
      NotReopened(ks, j);
    }
  }

  lemma {:induction false} TornDownBefore(ks: seq<(Kind, int)>, i: nat)
    requires i < |ks| - 1
    ensures TornDown(ks, i) ==> TornDown(ks[..|ks| - 1], i)
  {
    var init := ks[..|ks| - 1];
    assert forall m :: 0 <= m < |init| ==> init[m] == ks[m];
    if d :| 0 <= d < i && DiscPending(ks, d, i) { assert DiscPending(init, d, i); }
  }

  lemma {:induction false} TornDownAfter(ks: seq<(Kind, int)>, i: nat, j: nat)
    requires i < |ks| - 1 && i < j < |ks| && TornDown(ks[..|ks| - 1], i) && TornDown(ks, j)
    ensures TornDown(ks, i)
  {
    var init := ks[..|ks| - 1];
    assert forall m :: 0 <= m < |init| ==> init[m] == ks[m];
    assert j < |ks| - 1 ==> ks[|ks| - 1].0 != Sabm;
    assert j == |ks| - 1 ==> ks[j].0 != Sabm;
    if d :| 0 <= d < i && DiscPending(init, d, i) { assert DiscPending(ks, d, i); }
  }

  lemma {:induction false} NotReopened(ks: seq<(Kind, int)>, j: nat)
    requires j < |ks| && TornDown(ks, j)
    ensures j < |ks| - 1 ==> ks[|ks| - 1].0 != Sabm
    ensures ks[j].0 == Dm || ks[j].0 == Ua
  {
  }

  /** A circuit after the frames it carried: one that was not torn down is kept for two
      hours after the last of them, and is safe from being replaced for fifteen minutes;
      one that was, for two minutes after the teardown, and is never safe. */
  lemma {:induction false} CircuitLifetime(c: Circuit, ks: seq<(Kind, int)>, now: int)
    requires !c.closing && c.closedAt == 0 && ks != [] && forall k :: 0 <= k < |ks| ==> ks[k].1 != 0
    ensures var s, last := Some(CarryAll(c, ks)), ks[|ks| - 1].1;
            && ((forall j :: 0 <= j < |ks| ==> !TornDown(ks, j)) ==>
                  && (Held(s, now) <==> now - last <= 7200)
                  && (StateAt(now, s.value.lastUsed, s.value.closedAt) == Live <==> now - last <= 900))
            && (forall j :: 0 <= j < |ks| && FirstTeardown(ks, j) ==>
                  && (Held(s, now) <==> now - ks[j].1 <= 120 && now - last <= 7200)
                  && StateAt(now, s.value.lastUsed, s.value.closedAt) != Live)
  {
    hide TornDown, CarryAll;
    ClosedIffTornDown(c, ks);
    LastCarried(c, ks);
    forall j | 0 <= j < |ks| && FirstTeardown(ks, j) ensures CarryAll(c, ks).closedAt == ks[j].1 {
      ClosedAtTeardown(c, ks, j);
    }
  }

  // ----- which frames are looked at

  /** The frame concerns FlexNet: its originator is a FlexNet peer here, it names two
      digipeaters, one end is an external station, or any station on this port may be
      routed. */
  predicate Concerns(f: Frame, e: Setting)
    requires f.Valid()
  {
    || e.originMapped || |f.entries| >= 4
    || Named(e.external, f.IdAt(0)) || Named(e.external, f.IdAt(1))
    || (e.crossport && e.carriesFlexNet)
  }

  predicate Handled(f: Frame, e: Setting)
    requires f.Valid()
  {
    e.enabled && Concerns(f, e) && f.tail != []
  }

  /** Any other frame is digipeated as it is, and leaves no trace. */
  lemma {:induction false} OthersLeftAlone(s: seq<Slot>, f: Frame, our: nat, e: Setting)
    requires WellPlaced(f, our) && !Handled(f, e)
    ensures Process(s, f, our, e) == Result(s, Sent(f, our, 0, Plain))
  {
    hide Forward, ContractSlot;
  }

  lemma {:induction false} ConcernsIsEligible(f: Frame, e: Setting)
    requires f.Valid()
    ensures Eligible(f, e) <==> Concerns(f, e)
  {
  }

  /** Without a circuit it could return on, a frame that names us last is forwarded. */
  lemma {:induction false} UnclaimedIsForwarded(s: seq<Slot>, f: Frame, our: nat, e: Setting)
    requires WellPlaced(f, our) && IsLast(f, our) && Handled(f, e) && Unclaimed(s, f, e)
    ensures Process(s, f, our, e) == Forward(s, f, our, CtlKind(f.tail[0]), e)
  {
    hide Forward, FindRev;
    UnclaimedIsNoRev(s, f, e);
    ConcernsIsEligible(f, e);
  }

  // ----- the pinned hop

  /** The circuit keeps its hop: the session to it is up, and this is no new connection
      on a circuit that was torn down. */
  predicate KeepsHop(c: Circuit, f: Frame, e: Setting)
  {
    f.tail != [] && c.pin.Some? && c.pin.value.Id() in e.live && !(c.closedAt != 0 && CtlKind(f.tail[0]) == Sabm)
  }

  lemma {:induction false} HopPicked(s: seq<Slot>, i: nat, f: Frame, e: Setting)
    requires i < |s| && s[i].Some? && f.tail != []
    ensures PickHop(s, i, CtlKind(f.tail[0]), e) ==
            if KeepsHop(s[i].value, f, e) then (Via(s[i].value.pin.value, s[i].value.OutEff()), true)
            else (e.route, false)
  {
    hide CtlKind;
  }

  /** An extended frame of a circuit goes to the hop the circuit keeps, and else to the
      one the routing table names, and the circuit records the port to it. */
  lemma {:induction false} GoesToItsHop(s: seq<Slot>, f: Frame, our: nat, e: Setting, k: nat)
    requires WellPlaced(f, our) && OnePerCircuit(s) && CircuitOf(s, k, f, e) && Extends(Process(s, f, our, e))
    ensures var r, c := Process(s, f, our, e), s[k].value; var kept := KeepsHop(c, f, e);
            && (kept || e.route.Via?) && r.slots[k].Some?
            && r.out.act.next == (if kept then c.pin.value else e.route.next)
            && r.slots[k].value.pin == Some(r.out.act.next)
            && r.slots[k].value.OutEff() == (if kept then c.OutEff() else PortToward(e.route, e.arrive))
            && r.slots[k].value.port == e.arrive
  {
    hide Process, CtlKind, PickHop, KeepsHop, NoteCtl;
    ExtendedSlot(s, f, our, e, k);
    HopPicked(s, k, f, e);
    var kind, c := CtlKind(f.tail[0]), s[k].value;
    var pick := PickHop(s, k, kind, e);
    CarryKeepsIdentity(PinHop(c, pick.0.next, pick.0.port, pick.1, c.pin.None?), kind, e.now);
    KeptHasPin(c, f, e);
  }

  lemma {:induction false} KeptHasPin(c: Circuit, f: Frame, e: Setting)
    ensures KeepsHop(c, f, e) ==> c.pin.Some? && f.tail != []
  {
  }

  // ----- dropped

  /** Our call is in the chain before us already, repeated. */
  predicate Looped(f: Frame, our: nat)
    requires our < |f.entries|
  {
    exists i :: 2 <= i < our && f.entries[i].h && f.IdAt(i) == f.IdAt(our)
  }

  /** The frame belongs to some circuit of the table. */
  predicate HasCircuit(s: seq<Slot>, f: Frame, e: Setting)
    requires f.Valid()
  {
    exists k :: 0 <= k < |s| && Matches(s[k], f.IdAt(1), f.IdAt(0), e.arrive, e.now)
  }

  lemma {:induction false} CircuitFound(s: seq<Slot>, f: Frame, e: Setting)
    requires f.Valid()
    ensures var r := FindIn(s, f.IdAt(1), f.IdAt(0), e.arrive, false, e.now); r.1 >= 0 <==> HasCircuit(s, f, e)
  {
    hide Matches;
    FirstMatchIsFirst(s, f.IdAt(1), f.IdAt(0), e.arrive, e.now, 0);
  }

  /** Only a frame that has gone round a loop on a circuit of ours is dropped; and it is,
      unless it could be a returning one. */
  lemma {:induction false} DroppedWhen(s: seq<Slot>, f: Frame, our: nat, e: Setting)
    requires WellPlaced(f, our)
    ensures Process(s, f, our, e).out.Dropped? ==>
              Handled(f, e) && IsLast(f, our) && HasCircuit(s, f, e) && Looped(f, our)
    ensures Handled(f, e) && IsLast(f, our) && HasCircuit(s, f, e) && Looped(f, our) && Unclaimed(s, f, e) ==>
              Process(s, f, our, e).out.Dropped?
  {
    hide FindIn, ChoosePort, NoteAdjacent, ForwardVia, HasCircuit, FindRev, Unclaimed;
    CircuitFound(s, f, e);
    ConcernsIsEligible(f, e);
    UnclaimedIsNoRev(s, f, e);
    if Handled(f, e) { ForwardedIsSent(s, f, our, CtlKind(f.tail[0]), e); }
  }

  lemma {:induction false} ForwardedIsSent(s: seq<Slot>, f: Frame, our: nat, kind: Kind, e: Setting)
    requires WellPlaced(f, our)
    ensures Forward(s, f, our, kind, e).out.Dropped? <==>
              FindIn(s, f.IdAt(1), f.IdAt(0), e.arrive, false, e.now).1 >= 0 && SelfRepeated(f, our)
  {
    hide FindIn, ChoosePort, NoteAdjacent, Extend;
  }

  // ----- extended

  /** The hop is not in the chain, can be reached from the arrival port, and the frame
      has room for it: at most eight digipeaters, and as many as the port allows, in
      330 bytes. */
  predicate MayGrow(f: Frame, next: Hop, port: int, e: Setting)
    requires f.Valid()
  {
    && (forall i :: 0 <= i < |f.entries| ==> f.IdAt(i) != next.Id())
    && (port == e.arrive || e.crossport)
    && |f.entries| - 2 < 8 && (e.maxDigis != 0 ==> |f.entries| - 2 < e.maxDigis)
    && 7 * |f.entries| + |f.tail| + 7 <= 330
  }

  lemma {:induction false} GrowsWhen(s: seq<Slot>, f: Frame, our: nat, i: int, next: Hop, port: int, pinned: bool,
                                     kind: Kind, e: Setting)
    requires WellPlaced(f, our) && i < |s| && (i >= 0 ==> s[i].Some?) && (pinned ==> i >= 0 && s[i].value.pin.Some?)
    ensures var r := ForwardVia(s, f, our, i, next, port, pinned, kind, e);
            Extends(r) <==>
              MayGrow(f, next, port, e) && (i >= 0 || FindIn(s, f.IdAt(1), f.IdAt(0), e.arrive, true, e.now).1 >= 0)
    ensures var r := ForwardVia(s, f, our, i, next, port, pinned, kind, e); Extends(r) ==> r.out.act.next == next
  {
    hide FindIn, ChoosePort, PinHop, Carry;
    NotMentioned(f, next);
  }

  lemma {:induction false} NotMentioned(f: Frame, next: Hop)
    ensures f.Mentions(next.Id()) <==> !(forall i :: 0 <= i < |f.entries| ==> f.IdAt(i) != next.Id())
  {
    if i :| 0 <= i < |f.entries| && f.entries[i].addr.Id() == next.Id() { assert f.IdAt(i) == next.Id(); }
  }

  /** A frame of a circuit that names us last is extended exactly when it is one of those
      looked at, has not looped, has a hop to go to, and may grow by it. */
  lemma {:induction false} ExtendedOnCircuit(s: seq<Slot>, f: Frame, our: nat, e: Setting, k: nat)
    requires WellPlaced(f, our) && IsLast(f, our) && OnePerCircuit(s) && CircuitOf(s, k, f, e) && Unclaimed(s, f, e)
    ensures var c := s[k].value; var kept := KeepsHop(c, f, e);
            Extends(Process(s, f, our, e)) <==>
              && Handled(f, e) && !Looped(f, our) && (kept || e.route.Via?)
              && MayGrow(f, if kept then c.pin.value else e.route.next, if kept then c.OutEff() else e.route.port, e)
  {
    hide FindIn, ChoosePort, NoteAdjacent, ForwardVia, FindRev, Unclaimed, MayGrow, KeepsHop, PickHop, CtlKind,
      StateAt;
    if Handled(f, e) {
      var kind := CtlKind(f.tail[0]);
      UnclaimedIsForwarded(s, f, our, e);
      FindExisting(s, f.IdAt(1), f.IdAt(0), e.arrive, false, e.now, k);
      var t := FindIn(s, f.IdAt(1), f.IdAt(0), e.arrive, false, e.now).0;
      KeptSlot(s, k, e.now);
      HopPicked(t, k, f, e);
      KeptHasPin(s[k].value, f, e);
      var pick := PickHop(t, k, kind, e);
      if pick.0.Via? { GrowsWhen(t, f, our, k, pick.0.next, pick.0.port, pick.1, kind, e); }
    } else {
      OthersLeftAlone(s, f, our, e);
    }
  }

  lemma {:induction false} KeptSlot(s: seq<Slot>, k: nat, now: int)
    requires k < |s|
    ensures SweepTo(s, k, now)[k] == s[k]
  {
  }

  /** The first frame of a circuit is extended exactly when, besides, the table has a
      slot that is free or may be replaced. */
  lemma {:induction false} ExtendedAnew(s: seq<Slot>, f: Frame, our: nat, e: Setting)
    requires WellPlaced(f, our) && IsLast(f, our) && !HasCircuit(s, f, e) && Unclaimed(s, f, e)
    ensures Extends(Process(s, f, our, e)) <==>
              Handled(f, e) && e.route.Via? && MayGrow(f, e.route.next, e.route.port, e) && !AllLive(s, e.now)
    ensures Extends(Process(s, f, our, e)) ==> Process(s, f, our, e).out.act.next == e.route.next
  {
    hide FindIn, ChoosePort, NoteAdjacent, ForwardVia, FindRev, Unclaimed, MayGrow, CtlKind, StateAt, HasCircuit,
      SelfRepeated;
    if Handled(f, e) {
      var kind := CtlKind(f.tail[0]);
      UnclaimedIsForwarded(s, f, our, e);
      CircuitFound(s, f, e);
      var t := FindIn(s, f.IdAt(1), f.IdAt(0), e.arrive, false, e.now).0;
      RoomLeft(s, f, e);
      if e.route.Via? { GrowsWhen(t, f, our, -1, e.route.next, e.route.port, false, kind, e); }
    } else {
      OthersLeftAlone(s, f, our, e);
    }
  }

  lemma {:induction false} RoomLeft(s: seq<Slot>, f: Frame, e: Setting)
    requires f.Valid() && !HasCircuit(s, f, e)
    ensures var t := FindIn(s, f.IdAt(1), f.IdAt(0), e.arrive, false, e.now).0;
            FindIn(t, f.IdAt(1), f.IdAt(0), e.arrive, true, e.now).1 >= 0 <==> !AllLive(s, e.now)
  {
    hide StateAt;
    var user, dest := f.IdAt(1), f.IdAt(0);
    FoundOrNone(s, user, dest, e.arrive, e.now);
    CircuitFound(s, f, e);
    var t := FindIn(s, user, dest, e.arrive, false, e.now).0;
    AllocationPolicy(t, user, dest, e.arrive, e.now);
    StillLive(s, user, dest, e.arrive, e.now);
  }

  lemma {:induction false} StillLive(s: seq<Slot>, user: Call, dest: Call, port: int, now: int)
    ensures AllLive(FindIn(s, user, dest, port, false, now).0, now) <==> AllLive(s, now)
  {
    if !AllLive(s, now) {
      StillNotLive(s, user, dest, port, now);
    } else {
      var t := FindIn(s, user, dest, port, false, now).0;
      forall k | 0 <= k < |s| ensures t[k] == s[k] {
        assert !Gone(s[k], now);
      }
    }
  }

  // ----- no circuit without need

  /** A frame that is not extended, nor sent to a DEST next to us on another port, leaves
      no new circuit behind. */
  lemma {:induction false} NoStrayCircuit(s: seq<Slot>, f: Frame, our: nat, e: Setting)
    requires WellPlaced(f, our) && f.IdAt(0) != f.IdAt(1) && !HasCircuit(s, f, e)
    requires HasCircuit(Process(s, f, our, e).slots, f, e)
    ensures Extends(Process(s, f, our, e)) || (e.route.Adjacent? && e.route.port != 0 && e.route.port != e.arrive)
  {
    hide FindIn, ChoosePort, NoteAdjacent, FindRev, StateAt, Extend, Matches, NoteCtl, HasCircuit, SelfRepeated,
      MayExtend, CtlKind;
    if Handled(f, e) {
      var kind := CtlKind(f.tail[0]);
      var c := ContractSlot(s, f, our, e);
      ConcernsIsEligible(f, e);
      if c >= 0 {
        var t, g := s[c := Some(Carry(s[c].value, kind, e.now))], Removed(f, our - 1);
        RemovedKeepsStations(f, our);
        OtherCircuit(s, c, kind, f, e);
        SameStations(t, f, g, e);
        ChoiceMakesNone(t, g, our - 1, e);
        SameStations(ChoosePort(t, g, our - 1, e).0, f, g, e);
      } else if !IsLast(f, our) {
        ChoiceMakesNone(s, f, our, e);
      } else {
        ForwardMakesNone(s, f, our, kind, e);
      }
    } else {
      OthersLeftAlone(s, f, our, e);
    }
  }

  lemma {:induction false} SameStations(s: seq<Slot>, f: Frame, g: Frame, e: Setting)
    requires f.Valid() && g.Valid() && f.IdAt(0) == g.IdAt(0) && f.IdAt(1) == g.IdAt(1)
    ensures HasCircuit(s, f, e) <==> HasCircuit(s, g, e)
  {
  }

  lemma {:induction false} OtherCircuit(s: seq<Slot>, c: nat, kind: Kind, f: Frame, e: Setting)
    requires f.Valid() && c < |s| && s[c].Some? && s[c].value.user == f.IdAt(0) && f.IdAt(0) != f.IdAt(1)
    requires !HasCircuit(s, f, e)
    ensures !HasCircuit(s[c := Some(Carry(s[c].value, kind, e.now))], f, e)
  {
    hide StateAt, NoteCtl;
    CarryKeepsIdentity(s[c].value, kind, e.now);
    var t := s[c := Some(Carry(s[c].value, kind, e.now))];
    forall k | 0 <= k < |t| ensures !Matches(t[k], f.IdAt(1), f.IdAt(0), e.arrive, e.now) {
      assert !Matches(s[k], f.IdAt(1), f.IdAt(0), e.arrive, e.now);
    }
  }

  lemma {:induction false} ChoiceMakesNone(s: seq<Slot>, f: Frame, our: nat, e: Setting)
    requires WellPlaced(f, our) && !HasCircuit(s, f, e)
    ensures !HasCircuit(ChoosePort(s, f, our, e).0, f, e)
  {
    hide ChoosePort, StateAt;
    var t := ChoosePort(s, f, our, e).0;
    forall k | 0 <= k < |s| ensures !Matches(t[k], f.IdAt(1), f.IdAt(0), e.arrive, e.now) {
      ChoosePortSlot(s, f, our, e, k);
      assert !Matches(s[k], f.IdAt(1), f.IdAt(0), e.arrive, e.now);
    }
  }

  lemma {:induction false} ForwardMakesNone(s: seq<Slot>, f: Frame, our: nat, kind: Kind, e: Setting)
    requires WellPlaced(f, our) && !HasCircuit(s, f, e) && HasCircuit(Forward(s, f, our, kind, e).slots, f, e)
    ensures Extends(Forward(s, f, our, kind, e)) ||
            (e.route.Adjacent? && e.route.port != 0 && e.route.port != e.arrive)
  {
    hide FindIn, ChoosePort, NoteAdjacent, FindRev, StateAt, Extend, Matches, NoteCtl, HasCircuit, SelfRepeated,
      MayExtend;
    CircuitFound(s, f, e);
    var t := FindIn(s, f.IdAt(1), f.IdAt(0), e.arrive, false, e.now).0;
    FoundOrNone(s, f.IdAt(1), f.IdAt(0), e.arrive, e.now);
    NoneIsNone(t, f, e);
    ChoiceMakesNone(t, f, our, e);
    if e.route.Via? && MayExtend(f, e.route.next, e.route.port, e) {
      DeclinedMakesNone(t, f, e.route.next, e.route.port, kind, e);
    }
  }

  lemma {:induction false} NoneIsNone(s: seq<Slot>, f: Frame, e: Setting)
    requires f.Valid() && forall k :: 0 <= k < |s| ==> !Matches(s[k], f.IdAt(1), f.IdAt(0), e.arrive, e.now)
    ensures !HasCircuit(s, f, e)
  {
  }

  lemma {:induction false} DeclinedMakesNone(s: seq<Slot>, f: Frame, next: Hop, port: int, kind: Kind, e: Setting)
    requires f.Valid() && !HasCircuit(s, f, e)
    ensures var x := Extend(s, f, -1, next, port, false, kind, e); x.1.None? ==> !HasCircuit(x.0, f, e)
  {
    hide StateAt;
    var user, dest := f.IdAt(1), f.IdAt(0);
    var r := FindIn(s, user, dest, e.arrive, true, e.now);
    AllocationPolicy(s, user, dest, e.arrive, e.now);
    var x := Extend(s, f, -1, next, port, false, kind, e);
    if x.1.None? {
      forall k | 0 <= k < |s| ensures !Matches(x.0[k], user, dest, e.arrive, e.now) {
        assert !Matches(s[k], user, dest, e.arrive, e.now);
        assert k != r.1 ==> r.0[k] == Swept(s[k], e.now);
      }
    }
  }

  // ----- where frames go

  /** No frame changes ports without cross-port routing, unless an external station is
      one of its stations. */
  lemma {:induction false} StaysOnItsPort(s: seq<Slot>, f: Frame, our: nat, e: Setting)
    requires WellPlaced(f, our) && !e.crossport && Process(s, f, our, e).out.Sent?
    requires var g := Process(s, f, our, e).out.frame;
             forall i :: 0 <= i < |g.entries| ==> !Named(e.external, g.IdAt(i))
    ensures Process(s, f, our, e).out.toPort == 0
  {
    hide FindIn, FindRev, NoteAdjacent, Extend, CtlKind, SelfRepeated, PickHop, NoteCtl;
  }

  /** The station a frame goes to after us: the next digipeater, or DEST. */
  function Station(f: Frame, our: nat): Call
    requires WellPlaced(f, our)
  {
    if our + 1 < |f.entries| then f.IdAt(our + 1) else f.IdAt(0)
  }

  /** The port of the station a frame goes to: the one declared for an external station,
      else that of a FlexNet neighbour, else the one it came in on. */
  function StationPort(f: Frame, our: nat, e: Setting): int
    requires WellPlaced(f, our)
  {
    var next := Station(f, our);
    if Named(e.external, next) then e.external[next]
    else if Named(e.neighbours, next) then e.neighbours[next] else e.arrive
  }

  lemma {:induction false} ChoosesStationPort(s: seq<Slot>, f: Frame, our: nat, e: Setting)
    requires WellPlaced(f, our) && Unclaimed(s, f, e) && !HasCircuit(s, f, e)
    requires MayCross(f.IdAt(0), f.IdAt(1), e) || Named(e.external, Station(f, our))
    ensures ChoosePort(s, f, our, e).1 == LeavesOn(StationPort(f, our, e), e)
  {
    hide FindIn, FindRev, HasCircuit, Unclaimed;
    UnclaimedIsNoRev(s, f, e);
    CircuitFound(s, f, e);
  }

  /** A frame no circuit knows that is not for us to extend, because it names another node
      next, or no route to its DEST is known, or DEST is next to us on the port it came
      in on, leaves on the port of the station it goes to. */
  lemma {:induction false} LeavesTowardStation(s: seq<Slot>, f: Frame, our: nat, e: Setting)
    requires WellPlaced(f, our) && Handled(f, e) && Unclaimed(s, f, e) && !HasCircuit(s, f, e)
    requires f.IdAt(0) != f.IdAt(1)
    requires !IsLast(f, our) || e.route.NoRoute? ||
             (e.route.Adjacent? && (e.route.port == 0 || e.route.port == e.arrive))
    requires MayCross(f.IdAt(0), f.IdAt(1), e) || Named(e.external, Station(f, our))
    ensures var o := Process(s, f, our, e).out;
            o.Sent? && o.act == Plain && o.frame == f && o.at == our && o.toPort == LeavesOn(StationPort(f, our, e), e)
  {
    hide FindIn, FindRev, HasCircuit, Unclaimed, CtlKind, ChoosePort, StationPort, LeavesOn, NoteAdjacent, ForwardVia;
    UnclaimedIsNoRev(s, f, e);
    CircuitFound(s, f, e);
    ConcernsIsEligible(f, e);
    if IsLast(f, our) {
      var t := FindIn(s, f.IdAt(1), f.IdAt(0), e.arrive, false, e.now).0;
      FindUnclaimed(s, f, e, false);
      FoundOrNone(s, f.IdAt(1), f.IdAt(0), e.arrive, e.now);
      NoneIsNone(t, f, e);
      ChoosesStationPort(t, f, our, e);
    } else {
      ChoosesStationPort(s, f, our, e);
    }
  }
}
