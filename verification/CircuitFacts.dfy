/** What survives on a circuit: re-pinning, traffic in between, and the port its
  * frames leave on.
  */
module CircuitFacts {
  import opened Base
  import opened AxFrame
  import opened Circuits
  import opened Transit
  import opened TransitSteps
  import opened TransitRuns

  // ----- a live pin survives any traffic

  /** Slot `k` still holds the circuit with the hops and ports it had. */
  predicate SamePins(a: Slot, b: Slot)
  {
    && a.Some? && b.Some?
    && b.value.Is(a.value.user, a.value.dest, a.value.port)
    && b.value.pin == a.value.pin && b.value.prev == a.value.prev
    && b.value.outPort == a.value.outPort && b.value.prevOutPort == a.value.prevOutPort
  }

  /** The circuit is open, was used within the last 900 s, and the session of the
      hop it is pinned to is up. */
  predicate Thriving(s: Slot, e: Setting)
  {
    && s.Some? && StateAt(e.now, s.value.lastUsed, s.value.closedAt) == Live
    && s.value.pin.Some? && s.value.pin.value.Id() in e.live
  }

  lemma {:induction false} FindKeepsThriving(s: seq<Slot>, user: Call, dest: Call, port: int, create: bool, e: Setting,
                                             k: nat)
    requires k < |s| && Thriving(s[k], e)
    ensures FindIn(s, user, dest, port, create, e.now).0[k] == s[k]
  {
    var i := FirstMatch(s, user, dest, port, e.now, 0);
    if i == |s| && create {
      FirstMatchIsFirst(s, user, dest, port, e.now, 0);
      FirstFreeIs(s, e.now, |s|);
      AllocationPolicy(s, user, dest, port, e.now);
    }
  }

  lemma {:induction false} ChoosePortKeepsThriving(s: seq<Slot>, f: Frame, our: nat, e: Setting, k: nat)
    requires WellPlaced(f, our) && k < |s| && s[k].Some? && !Gone(s[k], e.now)
    ensures ChoosePort(s, f, our, e).0[k] == s[k]
  {
    ChoosePortSlot(s, f, our, e, k);
  }

  lemma {:induction false} CarriedIsHeld(c: Circuit, d: Circuit, kind: Kind, now: int)
    requires StateAt(now, c.lastUsed, c.closedAt) == Live && d.closedAt == c.closedAt
    ensures Held(Some(Carry(d, kind, now)), now)
  {
  }

  lemma {:induction false} ForwardKeepsThriving(s: seq<Slot>, f: Frame, our: nat, kind: Kind, e: Setting, k: nat)
    requires WellPlaced(f, our) && IsLast(f, our) && k < |s| && Thriving(s[k], e)
    ensures SamePins(s[k], Forward(s, f, our, kind, e).slots[k])
  {
    hide ChoosePort, FindIn, StateAt, NoteCtl;
    var user, dest := f.IdAt(1), f.IdAt(0);
    var found := FindIn(s, user, dest, e.arrive, false, e.now);
    FindKeepsThriving(s, user, dest, e.arrive, false, e, k);
    FindKeepsThriving(found.0, user, dest, e.arrive, true, e, k);
    FindKeepsThriving(found.0, user, dest, e.arrive, false, e, k);
    ThrivingIsOpen(s[k], e);
    NotFound(s, user, dest, e.arrive, e.now, k);
    if !(found.1 >= 0 && SelfRepeated(f, our)) {
      var pick := PickHop(found.0, found.1, kind, e);
      if !pick.0.Via? {
        KeepsThrivingUnrouted(found.0, f, our, found.1, pick.0, kind, e, k);
      } else {
        KeepsThrivingRouted(found.0, f, our, found.1, pick.0.next, pick.0.port, pick.1, kind, e, k);
      }
    }
  }

  lemma {:induction false} NotFound(s: seq<Slot>, user: Call, dest: Call, port: int, now: int, k: nat)
    requires k < |s|
    ensures FindIn(s, user, dest, port, false, now).1 < 0 ==> !Matches(s[k], user, dest, port, now)
  {
    FirstMatchIsFirst(s, user, dest, port, now, 0);
  }

  lemma {:induction false} ThrivingIsOpen(s: Slot, e: Setting)
    requires Thriving(s, e)
    ensures s.value.closedAt == 0 && !Gone(s, e.now)
  {
  }

  lemma {:induction false} CreatedElsewhere(s: seq<Slot>, user: Call, dest: Call, port: int, e: Setting, k: nat)
    requires k < |s| && Thriving(s[k], e)
    ensures var r := FindIn(s, user, dest, port, true, e.now);
            r.1 == k ==> s[k].value.Is(user, dest, port) && Matches(s[k], user, dest, port, e.now)
  {
    FindKeepsThriving(s, user, dest, port, true, e, k);
    ThrivingIsOpen(s[k], e);
  }

  lemma {:induction false} KeepsThrivingUnrouted(s: seq<Slot>, f: Frame, our: nat, i: int, route: Route, kind: Kind,
                                                 e: Setting, k: nat)
    requires WellPlaced(f, our) && i < |s| && (i >= 0 ==> s[i].Some?) && !route.Via?
    requires k < |s| && Thriving(s[k], e) && i != k
    requires i < 0 ==> !Matches(s[k], f.IdAt(1), f.IdAt(0), e.arrive, e.now)
    ensures SamePins(s[k], SendPlain(s, f, our, e, Plain).slots[k])
    ensures route.Adjacent? ==>
            SamePins(s[k], SendPlain(NoteAdjacent(s, f, i, route.port, kind, e), f, our, e, Plain).slots[k])
  {
    hide ChoosePort, FindIn, StateAt, NoteCtl;
    ThrivingIsOpen(s[k], e);
    FindKeepsThriving(s, f.IdAt(1), f.IdAt(0), e.arrive, true, e, k);
    CreatedElsewhere(s, f.IdAt(1), f.IdAt(0), e.arrive, e, k);
    ChoosePortKeepsThriving(s, f, our, e, k);
    if route.Adjacent? {
      var t := NoteAdjacent(s, f, i, route.port, kind, e);
      assert t[k] == s[k];
      ChoosePortKeepsThriving(t, f, our, e, k);
    }
  }

  lemma {:induction false} KeepsThrivingRouted(s: seq<Slot>, f: Frame, our: nat, i: int, next: Hop, port: int,
                                               pinned: bool, kind: Kind, e: Setting, k: nat)
    requires WellPlaced(f, our) && i < |s| && (i >= 0 ==> s[i].Some?) && (pinned ==> i >= 0 && s[i].value.pin.Some?)
    requires k < |s| && Thriving(s[k], e) && (i == k ==> pinned)
    requires i < 0 ==> !Matches(s[k], f.IdAt(1), f.IdAt(0), e.arrive, e.now)
    ensures SamePins(s[k], ForwardVia(s, f, our, i, next, port, pinned, kind, e).slots[k])
  {
    hide ChoosePort, FindIn, StateAt, NoteCtl;
    ThrivingIsOpen(s[k], e);
    FindKeepsThriving(s, f.IdAt(1), f.IdAt(0), e.arrive, true, e, k);
    CreatedElsewhere(s, f.IdAt(1), f.IdAt(0), e.arrive, e, k);
    if MayExtend(f, next, port, e) {
      var x := Extend(s, f, i, next, port, pinned, kind, e);
      CarryKeepsIdentity(s[k].value, kind, e.now);
      CarriedIsHeld(s[k].value, s[k].value, kind, e.now);
      assert x.0[k] == s[k] || x.0[k] == Some(Carry(s[k].value, kind, e.now));
      if x.1.Some? {
        ChoosePortKeepsThriving(x.0, x.1.value, our, e, k);
      }
    }
  }

  /** Whatever frame a node handles, a thriving circuit keeps its pin, the pin it
      replaced, and both ports. */
  lemma {:induction false} PinSurvivesVisit(s: seq<Slot>, f: Frame, our: nat, e: Setting, k: nat)
    requires WellPlaced(f, our) && k < |s| && Thriving(s[k], e)
    ensures SamePins(s[k], Process(s, f, our, e).slots[k])
  {
    hide ChoosePort, FindIn, FindRev, StateAt, NoteCtl, Forward;
    ThrivingIsOpen(s[k], e);
    if e.enabled && Eligible(f, e) && f.tail != [] {
      var kind := CtlKind(f.tail[0]);
      var c := ContractSlot(s, f, our, e);
      if c >= 0 {
        var t := s[c := Some(Carry(s[c].value, kind, e.now))];
        CarryKeepsIdentity(s[c].value, kind, e.now);
        CarriedIsHeld(s[k].value, s[k].value, kind, e.now);
        assert SamePins(s[k], t[k]) && !Gone(t[k], e.now);
        ChoosePortKeepsThriving(t, Removed(f, our - 1), our - 1, e, k);
      } else if !IsLast(f, our) {
        ChoosePortKeepsThriving(s, f, our, e, k);
      } else {
        ForwardKeepsThriving(s, f, our, kind, e, k);
      }
    }
  }

  /** Over any run in which the circuit stays thriving, it keeps its pins. */
  lemma {:induction false} PinSurvivesRun(s: seq<Slot>, run: seq<Arrival>, k: nat)
    requires AllValid(run) && k < |s| && s[k].Some?
    requires forall i :: 0 <= i < |run| ==> Thriving(TableAfter(s, run[..i])[k], run[i].e)
    ensures SamePins(s[k], TableAfter(s, run)[k])
    decreases |run|
  {
    hide Process, Thriving;
    if run != [] {
      var n := |run| - 1;
      forall i | 0 <= i < n ensures run[..n][..i] == run[..i] {
      }
      PinSurvivesRun(s, run[..n], k);
      PinSurvivesVisit(TableAfter(s, run[..n]), run[n].f, run[n].our, run[n].e, k);
    }
  }

  // ----- re-pinning keeps both hops contractible

  /** The circuit in slot `i` is the one `f` travels on. */
  predicate CircuitOf(s: seq<Slot>, i: nat, f: Frame, e: Setting)
    requires f.Valid()
  {
    i < |s| && Matches(s[i], f.IdAt(1), f.IdAt(0), e.arrive, e.now)
  }

  predicate Extends(r: Result) { r.out.Sent? && r.out.act.Extended? }

  /** The port toward `next` recorded for the answers. */
  function PortToward(route: Route, arrive: int): int
  {
    if route.Via? && route.port != 0 then route.port else arrive
  }

  /** What extending a frame of a circuit leaves in its slot. */
  lemma {:induction false} ExtendedSlot(s: seq<Slot>, f: Frame, our: nat, e: Setting, i: nat)
    requires WellPlaced(f, our) && OnePerCircuit(s) && CircuitOf(s, i, f, e) && Extends(Process(s, f, our, e))
    ensures f.tail != []
    ensures var kind := CtlKind(f.tail[0]); var pick, r, c := PickHop(s, i, kind, e), Process(s, f, our, e), s[i].value;
            && pick.0.Via? && r.out.act.next == pick.0.next
            && r.slots[i] == Some(Carry(PinHop(c, pick.0.next, pick.0.port, pick.1, c.pin.None?), kind, e.now))
  {
    hide FindIn, FindRev, NoteCtl, StateAt, ChoosePort;
    var kind := CtlKind(f.tail[0]);
    FindExisting(s, f.IdAt(1), f.IdAt(0), e.arrive, false, e.now, i);
    var t := SweepTo(s, i, e.now);
    var pick, c := PickHop(s, i, kind, e), s[i].value;
    assert t[i] == s[i];
    var p := PinHop(c, pick.0.next, pick.0.port, pick.1, c.pin.None?);
    PinHopClock(c, pick.0.next, pick.0.port, pick.1, kind, e.now);
    var x := Extend(t, f, i, pick.0.next, pick.0.port, pick.1, kind, e);
    assert x.0[i] == Some(Carry(p, kind, e.now));
    ChoosePortKeepsThriving(x.0, x.1.value, our, e, i);
  }

  lemma {:induction false} PinHopClock(c: Circuit, next: Hop, port: int, pinned: bool, kind: Kind, now: int)
    requires StateAt(now, c.lastUsed, c.closedAt) != Expired
    ensures !Gone(Some(Carry(PinHop(c, next, port, pinned, c.pin.None?), kind, now)), now)
  {
    NotExpiredYet(PinHop(c, next, port, pinned, c.pin.None?), kind, now);
  }

  /** However a frame of a pinned circuit is extended, a returning frame over the hop
      it was pinned to and one over the hop just appended are both ours to contract,
      and the circuit returns on the port the new hop is reached on. Over a different
      station it also still returns on the port it had. */
  lemma {:induction false} RepinKeepsBoth(s: seq<Slot>, f: Frame, our: nat, e: Setting, i: nat)
    requires WellPlaced(f, our) && OnePerCircuit(s) && CircuitOf(s, i, f, e) && s[i].value.pin.Some?
    requires Extends(Process(s, f, our, e))
    ensures var r, c := Process(s, f, our, e), s[i].value; var next := r.out.act.next;
            && r.slots[i].Some? && var t := r.slots[i].value;
            && t.Is(c.user, c.dest, c.port)
            && t.OurHop(Entry(c.pin.value, true)) && t.OurHop(Entry(next, true))
            && !t.OurHop(Entry(c.pin.value, false)) && !t.OurHop(Entry(next, false))
            && t.ReturnsOn(t.OutEff())
            && (next.Id() != c.pin.value.Id() ==>
                  e.route.Via? && t.OutEff() == PortToward(e.route, e.arrive) && t.ReturnsOn(c.OutEff()))
  {
    hide Process, NoteCtl;
    ExtendedSlot(s, f, our, e, i);
    var kind, c := CtlKind(f.tail[0]), s[i].value;
    var pick := PickHop(s, i, kind, e);
    CarryKeepsIdentity(PinHop(c, pick.0.next, pick.0.port, pick.1, false), kind, e.now);
  }

  /** A circuit whose pin is chosen again returns on the port it had exactly when the
      station changed, the port did not, or the port is the one remembered from
      before: choosing the same station on another port forgets the old port. */
  lemma {:induction false} OldPortKept(s: seq<Slot>, f: Frame, our: nat, e: Setting, i: nat)
    requires WellPlaced(f, our) && OnePerCircuit(s) && CircuitOf(s, i, f, e) && s[i].value.pin.Some?
    requires Extends(Process(s, f, our, e)) && f.tail != []
    requires var c := s[i].value; MustRepin(c.closedAt != 0, CtlKind(f.tail[0]), c.pin.value.Id() in e.live)
    ensures e.route.Via? && Process(s, f, our, e).slots[i].Some?
    ensures var c, t := s[i].value, Process(s, f, our, e).slots[i].value;
            t.ReturnsOn(c.OutEff()) <==>
              || e.route.next.Id() != c.pin.value.Id()
              || PortToward(e.route, e.arrive) == c.OutEff()
              || (c.prev.Some? && c.prevOutPort == c.OutEff())
  {
    hide Process, NoteCtl;
    ExtendedSlot(s, f, our, e, i);
    var kind, c := CtlKind(f.tail[0]), s[i].value;
    CarryKeepsIdentity(PinHop(c, e.route.next, e.route.port, false, false), kind, e.now);
  }

  // The second half of that: a node `US` between `USER` and `DEST`, and a neighbour `HOP`
  // that is reached on port 2 first and on port 3 later.

  const DEST := Addr([2, 2, 2, 2, 2, 2], 0)
  const USER := Addr([4, 4, 4, 4, 4, 4], 0)
  const US := Addr([6, 6, 6, 6, 6, 6], 0)
  const HOP: Hop := Addr([8, 8, 8, 8, 8, 8], 0)

  function Outward(ctl: bv8): Frame { Frame([Entry(DEST, false), Entry(USER, false), Entry(US, false)], [ctl]) }

  function Homeward(ctl: bv8): Frame
  {
    Frame([Entry(USER, false), Entry(DEST, false), Entry(HOP, true), Entry(US, false)], [ctl])
  }

  function Around(arrive: int, port: int, now: int): Setting
  {
    Setting(true, true, arrive, 0, true, {1, 2, 3}, true, true, map[], map[], {HOP.Id()}, Via(HOP, port), now)
  }

  /** Connect over port 2, be refused, connect again over port 3. */
  const SAME_STATION := [
    Arrival(Outward(0x2F), 2, Around(1, 2, 1000)), Arrival(Outward(0x0F), 2, Around(1, 2, 1001)),
    Arrival(Outward(0x2F), 2, Around(1, 3, 1002))]

  function Toward(port: int, closedAt: int, now: int): Slot
  {
    Some(Circuit(USER.Id(), DEST.Id(), 1, Some(HOP), None, port, 0, false, closedAt, now))
  }

  lemma {:induction false} FourCalls()
    ensures DEST.Valid() && USER.Valid() && US.Valid()
    ensures DEST.Id() != USER.Id() && HOP.Id() != DEST.Id() && HOP.Id() != USER.Id() && HOP.Id() != US.Id()
    ensures CtlKind(0x2F) == Sabm && CtlKind(0x0F) == Dm
  {
    assert DEST.base[0] != USER.base[0] && HOP.base[0] != DEST.base[0] && HOP.base[0] != USER.base[0];
    assert HOP.base[0] != US.base[0];
  }
  /** Over whole runs: a frame re-pins the circuit in slot `i`; traffic of any kind
      follows, the circuit staying live and its new hop up; then a frame returns
      between the same stations over either hop, on a port recorded for it. It is
      contracted: exactly that hop is taken out of its chain. */
  lemma {:induction false} BothHopsComeBack(s: seq<Slot>, a: Arrival, i: nat, run: seq<Arrival>, b: Arrival)
    requires a.Valid() && OnePerCircuit(s) && CircuitOf(s, i, a.f, a.e) && s[i].value.pin.Some?
    requires Extends(Process(s, a.f, a.our, a.e)) && AllValid(run)
    requires var t := Process(s, a.f, a.our, a.e).slots;
             && (forall k :: 0 <= k < |run| ==> Thriving(TableAfter(t, run[..k])[i], run[k].e))
             && Sole(TableAfter(t, run), i, a.f.IdAt(1), a.f.IdAt(0)) && Held(TableAfter(t, run)[i], b.e.now)
    requires b.Valid() && b.our >= 3 && b.e.enabled && b.f.tail != []
    requires b.f.IdAt(0) == a.f.IdAt(1) && b.f.IdAt(1) == a.f.IdAt(0) && b.f.entries[b.our - 1].h
    requires var c, next := s[i].value, Process(s, a.f, a.our, a.e).out.act.next; var hop := b.f.IdAt(b.our - 1);
             && next.Id() != c.pin.value.Id()
             && (hop == c.pin.value.Id() || hop == next.Id())
             && (b.e.arrive == c.OutEff() || b.e.arrive == PortToward(a.e.route, a.e.arrive))
    ensures var o := Process(TableAfter(Process(s, a.f, a.our, a.e).slots, run), b.f, b.our, b.e).out;
            && o.Sent? && o.act == Contracted(b.f.entries[b.our - 1])
            && o.frame == Removed(b.f, b.our - 1) && o.at == b.our - 1
  {
    hide Process, Thriving, StateAt, PickHop, PinHop;
    RepinKeepsBoth(s, a.f, a.our, a.e, i);
    var t := Process(s, a.f, a.our, a.e).slots;
    PinSurvivesRun(t, run, i);
    ReturningIsContracted(TableAfter(t, run), i, b.f, b.our, b.e);
  }

  /** A frame that names only us, on a node with room for one circuit. */
  predicate Lone(s: seq<Slot>, f: Frame, e: Setting)
  {
    && f.Valid() && |f.entries| == 3 && |f.tail| == 1 && |s| == 1
    && e.enabled && e.originMapped && e.crossport && e.maxDigis == 0 && e.route.Via? && !f.Mentions(e.route.next.Id())
    && (s[0].Some? ==> Matches(s[0], f.IdAt(1), f.IdAt(0), e.arrive, e.now) && s[0].value.pin == Some(e.route.next))
  }

  lemma {:induction false} LoneFrame(s: seq<Slot>, f: Frame, e: Setting)
    requires Lone(s, f, e)
    ensures var kind := CtlKind(f.tail[0]);
            var isNew := s[0].None?;
            var c := if isNew then NewCircuit(f.IdAt(1), f.IdAt(0), e.arrive, e.now) else s[0].value;
            var pinned := !isNew && !MustRepin(c.closedAt != 0, kind, c.pin.value.Id() in e.live);
            && WellPlaced(f, 2)
            && Process(s, f, 2, e).slots ==
                 [Some(Carry(PinHop(c, e.route.next, e.route.port, pinned, isNew), kind, e.now))]
  {
    hide NoteCtl, StateAt, ChoosePort, CtlKind;
    var kind := CtlKind(f.tail[0]);
    var isNew, c := s[0].None?, if s[0].None? then NewCircuit(f.IdAt(1), f.IdAt(0), e.arrive, e.now) else s[0].value;
    var found := FindIn(s, f.IdAt(1), f.IdAt(0), e.arrive, false, e.now);
    if isNew {
      LoneFind(f.IdAt(1), f.IdAt(0), e.arrive, e.now);
      assert s == [None];
    } else {
      FindExisting(s, f.IdAt(1), f.IdAt(0), e.arrive, false, e.now, 0);
      assert SweepTo(s, 0, e.now) == s;
    }
    assert found == (s, if isNew then -1 else 0);
    var pick := PickHop(s, found.1, kind, e);
    assert pick.0.Via? && MayExtend(f, pick.0.next, pick.0.port, e) && !SelfRepeated(f, 2);
    var x := Extend(s, f, found.1, pick.0.next, pick.0.port, pick.1, kind, e);
    LoneHeld(c, isNew, e.now);
    NotExpiredYet(PinHop(c, pick.0.next, pick.0.port, pick.1, isNew), kind, e.now);
    assert x.0 == [Some(Carry(PinHop(c, pick.0.next, pick.0.port, pick.1, isNew), kind, e.now))];
    ChoosePortKeepsThriving(x.0, x.1.value, 2, e, 0);
    assert ForwardVia(s, f, 2, found.1, pick.0.next, pick.0.port, pick.1, kind, e).slots == x.0;
  }

  lemma {:induction false} LoneHeld(c: Circuit, isNew: bool, now: int)
    requires if isNew then c.lastUsed == now && c.closedAt == 0 else Held(Some(c), now)
    ensures StateAt(now, c.lastUsed, c.closedAt) != Expired
  {
  }

  lemma {:induction false} LoneFind(user: Call, dest: Call, port: int, now: int)
    ensures FindIn([None], user, dest, port, false, now) == ([None], -1)
    ensures FindIn([None], user, dest, port, true, now) == ([Some(NewCircuit(user, dest, port, now))], 0)
  {
    var s: seq<Slot> := [None];
    assert FirstMatch(s, user, dest, port, now, 1) == 1;
    assert FirstFree(s, now, 0) == -1 && FirstFree(s, now, |s|) == 0 && Victim(s, now) == 0;
    assert SweepTo(s, 1, now) == s &&
      s[0 := Some(NewCircuit(user, dest, port, now))] == [Some(NewCircuit(user, dest, port, now))];
  }

  lemma {:induction false} OutwardIsLone(s: seq<Slot>, ctl: bv8, port: int, now: int)
    requires s == [None] || (exists p, c, t :: s == [Toward(p, c, t)] && t <= now <= t + 10 && (c == 0 || c == t))
    ensures Lone(s, Outward(ctl), Around(1, port, now))
  {
    FourCalls();
  }

  lemma {:induction false} LoneRun(a: Arrival, b: Arrival, c: Arrival)
    requires a.Valid() && b.Valid() && c.Valid() && a.our == b.our == c.our == 2
    ensures TableAfter([None], [a, b, c]) ==
            Process(Process(Process([None], a.f, 2, a.e).slots, b.f, 2, b.e).slots, c.f, 2, c.e).slots
  {
    hide Process;
    var run := [a, b, c];
    assert run[..2] == [a, b] && [a, b][..1] == [a] && [a][..0] == [];
    assert TableAfter([None], [a]) == Process([None], a.f, 2, a.e).slots;
    assert TableAfter([None], [a, b]) == Process(TableAfter([None], [a]), b.f, 2, b.e).slots;
  }

  lemma {:induction false} NotContracted(s: seq<Slot>, f: Frame, our: nat, e: Setting)
    requires WellPlaced(f, our) && FindRev(s, f.IdAt(0), f.IdAt(1), e.arrive, e.now, 0) < 0 && !SelfRepeated(f, our)
    ensures var o := Process(s, f, our, e).out; o.Sent? && !o.act.Contracted?
  {
    hide ChoosePort, FindIn, FindRev, NoteCtl;
  }

  /** Then an answer over that station on port 2 is not recognised. */
  lemma {:induction false} SameStationForgetsPort()
    ensures AllValid(SAME_STATION) && TableAfter([None], SAME_STATION) == [Toward(3, 0, 1002)]
    ensures WellPlaced(Homeward(0x03), 3)
    ensures var o := Process([Toward(3, 0, 1002)], Homeward(0x03), 3, Around(2, 3, 1003)).out;
            o.Sent? && !o.act.Contracted?
  {
    hide Process, MayExtend, Lone;
    FourCalls();
    var t0, t1, t2: seq<Slot> := [None], [Toward(2, 0, 1000)], [Toward(2, 1001, 1001)];
    OutwardIsLone(t0, 0x2F, 2, 1000);
    LoneFrame(t0, Outward(0x2F), Around(1, 2, 1000));
    OutwardIsLone(t1, 0x0F, 2, 1001);
    LoneFrame(t1, Outward(0x0F), Around(1, 2, 1001));
    OutwardIsLone(t2, 0x2F, 3, 1002);
    LoneFrame(t2, Outward(0x2F), Around(1, 3, 1002));
    LoneRun(SAME_STATION[0], SAME_STATION[1], SAME_STATION[2]);
    NotContracted([Toward(3, 0, 1002)], Homeward(0x03), 3, Around(2, 3, 1003));
  }

  // ----- the port a forward frame leaves on is the one its answers return on

  /** The station has a port of its own in the map. */
  predicate Named(m: map<Call, int>, c: Call) { c in m && m[c] != 0 }

  /** A frame between the two stations may change ports. */
  predicate MayCross(a: Call, b: Call, e: Setting)
  {
    e.crossport || Named(e.external, a) || Named(e.external, b)
  }

  /** No circuit claims the frame as one that returns. */
  predicate Unclaimed(s: seq<Slot>, f: Frame, e: Setting)
    requires f.Valid()
  {
    forall k :: 0 <= k < |s| ==> !Returns(s[k], f.IdAt(0), f.IdAt(1), e.arrive, e.now)
  }

  lemma {:induction false} UnclaimedIsNoRev(s: seq<Slot>, f: Frame, e: Setting)
    requires f.Valid()
    ensures Unclaimed(s, f, e) <==> FindRev(s, f.IdAt(0), f.IdAt(1), e.arrive, e.now, 0) < 0
  {
    hide Returns;
    FindRevIsFirst(s, f.IdAt(0), f.IdAt(1), e.arrive, e.now, 0);
  }

  lemma {:induction false} FindUnclaimed(s: seq<Slot>, f: Frame, e: Setting, create: bool)
    requires f.Valid() && Unclaimed(s, f, e) && f.IdAt(0) != f.IdAt(1)
    ensures Unclaimed(FindIn(s, f.IdAt(1), f.IdAt(0), e.arrive, create, e.now).0, f, e)
  {
    hide StateAt;
  }

  lemma {:induction false} ExtendUnclaimed(s: seq<Slot>, f: Frame, i: int, next: Hop, port: int, pinned: bool,
                                           kind: Kind, e: Setting)
    requires f.Valid() && i < |s| && (pinned ==> i >= 0)
    requires i >= 0 ==> Matches(s[i], f.IdAt(1), f.IdAt(0), e.arrive, e.now)
    requires pinned ==> s[i].value.pin == Some(next)
    requires Unclaimed(s, f, e) && f.IdAt(0) != f.IdAt(1)
    ensures Unclaimed(Extend(s, f, i, next, port, pinned, kind, e).0, f, e)
  {
    hide FindIn, StateAt, Carry;
    FindUnclaimed(s, f, e, true);
    var found := if i >= 0 then (s, i) else FindIn(s, f.IdAt(1), f.IdAt(0), e.arrive, true, e.now);
    if found.1 >= 0 {
      var c := found.0[found.1].value;
      var p := PinHop(c, next, port, pinned, i < 0 || c.pin.None?);
      CarryKeepsIdentity(p, kind, e.now);
    }
  }

  /** The port a frame goes out on when its circuit records `out`. */
  function LeavesOn(out: int, e: Setting): int
  {
    if out == e.arrive || !e.digipeats || out !in e.ports then 0 else out
  }

  lemma {:induction false} ChoosesRecordedPort(s: seq<Slot>, f: Frame, our: nat, e: Setting, k: nat)
    requires WellPlaced(f, our) && OnePerCircuit(s) && Unclaimed(s, f, e) && CircuitOf(s, k, f, e)
    requires s[k].value.OutEff() != 0 && (MayCross(f.IdAt(0), f.IdAt(1), e) || s[k].value.OutEff() == e.arrive)
    ensures ChoosePort(s, f, our, e).1 == LeavesOn(s[k].value.OutEff(), e)
  {
    hide FindIn, FindRev, StateAt, Unclaimed;
    FindExisting(s, f.IdAt(1), f.IdAt(0), e.arrive, false, e.now, k);
    UnclaimedIsNoRev(s, f, e);
  }

  lemma {:induction false} ExtendOut(s: seq<Slot>, f: Frame, i: int, next: Hop, port: int, pinned: bool, kind: Kind,
                                     e: Setting, k: nat)
    requires f.Valid() && i < |s| && (pinned ==> i >= 0) && OnePerCircuit(s)
    requires i >= 0 ==> Matches(s[i], f.IdAt(1), f.IdAt(0), e.arrive, e.now)
    requires pinned ==> s[i].value.pin == Some(next) && s[i].value.OutEff() == port
    requires var x := Extend(s, f, i, next, port, pinned, kind, e);
             x.1.Some? && k < |s| && x.0[k].Some? && x.0[k].value.Is(f.IdAt(1), f.IdAt(0), e.arrive)
    ensures var c := Extend(s, f, i, next, port, pinned, kind, e).0[k].value;
            c.OutEff() == if port != 0 then port else e.arrive
  {
    hide StateAt, NoteCtl;
    var found := if i >= 0 then (s, i) else FindIn(s, f.IdAt(1), f.IdAt(0), e.arrive, true, e.now);
    FindKeepsUnique(s, f.IdAt(1), f.IdAt(0), e.arrive, true, e.now);
    var c := found.0[found.1].value;
    var p := PinHop(c, next, port, pinned, i < 0 || c.pin.None?);
    CarryKeepsIdentity(p, kind, e.now);
    assert k == found.1;
  }

  lemma {:induction false} AppendedUnclaimed(s: seq<Slot>, f: Frame, g: Frame, e: Setting, k: nat)
    requires f.Valid() && g.Valid() && g.entries[..2] == f.entries[..2] && Unclaimed(s, f, e)
    requires k < |s| && Held(s[k], e.now) && s[k].value.Is(f.IdAt(1), f.IdAt(0), e.arrive)
    ensures Unclaimed(s, g, e) && CircuitOf(s, k, g, e)
  {
    hide Returns;
    assert g.entries[0] == g.entries[..2][0] == f.entries[0] && g.entries[1] == g.entries[..2][1] == f.entries[1];
  }

  lemma {:induction false} ForwardLeaves(s: seq<Slot>, f: Frame, our: nat, i: int, next: Hop, port: int, pinned: bool,
                                         kind: Kind, e: Setting)
    requires WellPlaced(f, our) && i < |s| && (pinned ==> i >= 0) && OnePerCircuit(s)
    requires i >= 0 ==> Matches(s[i], f.IdAt(1), f.IdAt(0), e.arrive, e.now)
    requires pinned ==> s[i].value.pin == Some(next) && s[i].value.OutEff() == port
    requires ForwardVia(s, f, our, i, next, port, pinned, kind, e).out.act.Extended?
    requires Unclaimed(s, f, e) && f.IdAt(0) != f.IdAt(1) && e.arrive != 0
    ensures var r := ForwardVia(s, f, our, i, next, port, pinned, kind, e);
            exists k :: 0 <= k < |r.slots| && Pins(r.slots[k], f.IdAt(1), f.IdAt(0), next.Id(), e.now) &&
              r.out.toPort == LeavesOn(r.slots[k].value.OutEff(), e)
  {
    hide FindIn, FindRev, StateAt, Extend, Carry, PinHop, ChoosePort, Unclaimed, LeavesOn;
    ExtendPins(s, f, i, next, port, pinned, kind, e);
    ExtendKeepsUnique(s, f, i, next, port, pinned, kind, e);
    ExtendUnclaimed(s, f, i, next, port, pinned, kind, e);
    var x := Extend(s, f, i, next, port, pinned, kind, e);
    var g := x.1.value;
    var k :| 0 <= k < |s| && (i >= 0 ==> k == i) &&
             Pins(x.0[k], f.IdAt(1), f.IdAt(0), next.Id(), e.now) && Held(x.0[k], e.now) &&
               x.0[k].value.port == e.arrive;
    assert g.entries[..2] == f.entries[..2];
    AppendedUnclaimed(x.0, f, g, e, k);
    ExtendOut(s, f, i, next, port, pinned, kind, e, k);
    ChoosesRecordedPort(x.0, g, our, e, k);
    ChoosePortKeepsThriving(x.0, g, our, e, k);
    assert ForwardVia(s, f, our, i, next, port, pinned, kind, e).slots[k] == x.0[k];
  }

  /** An extended frame that no circuit claims as a returning one leaves on exactly the
      port its circuit records for the answers, if that port exists and the arrival
      port digipeats; otherwise it stays on the arrival port. */
  lemma {:induction false} LeavesOnRecordedPort(s: seq<Slot>, f: Frame, our: nat, e: Setting)
    requires WellPlaced(f, our) && OnePerCircuit(s) && Extends(Process(s, f, our, e))
    requires Unclaimed(s, f, e) && f.IdAt(0) != f.IdAt(1) && e.arrive != 0
    ensures var r := Process(s, f, our, e);
            exists k :: 0 <= k < |r.slots| && Pins(r.slots[k], f.IdAt(1), f.IdAt(0), r.out.act.next.Id(), e.now) &&
              r.out.toPort == LeavesOn(r.slots[k].value.OutEff(), e)
  {
    hide FindIn, FindRev, StateAt, ForwardVia, Unclaimed, LeavesOn, ChoosePort, NoteAdjacent;
    var kind := CtlKind(f.tail[0]);
    var found := FindIn(s, f.IdAt(1), f.IdAt(0), e.arrive, false, e.now);
    FoundIsHeld(s, f.IdAt(1), f.IdAt(0), e.arrive, false, e.now);
    FindKeepsUnique(s, f.IdAt(1), f.IdAt(0), e.arrive, false, e.now);
    FindUnclaimed(s, f, e, false);
    var pick := PickHop(found.0, found.1, kind, e);
    ForwardViaPins(found.0, f, our, found.1, pick.0.next, pick.0.port, pick.1, kind, e);
    ForwardLeaves(found.0, f, our, found.1, pick.0.next, pick.0.port, pick.1, kind, e);
  }
  // ----- the port a returning frame leaves on

  /** Sent toward port `a`: by itself, if the frame came in on it; to that port, if
      it `may` change ports and that one can be sent on. */
  predicate SentToward(toPort: int, a: int, may: bool, e: Setting)
  {
    a != 0 ==> (a == e.arrive ==> toPort == 0) && (may ==> toPort == LeavesOn(a, e))
  }

  lemma {:induction false} ReturningChooses(s: seq<Slot>, f: Frame, our: nat, e: Setting)
    requires WellPlaced(f, our) && FindRev(s, f.IdAt(0), f.IdAt(1), e.arrive, e.now, 0) >= 0
    ensures var k := FindRev(s, f.IdAt(0), f.IdAt(1), e.arrive, e.now, 0);
            SentToward(ChoosePort(s, f, our, e).1, s[k].value.port, MayCross(f.IdAt(0), f.IdAt(1), e), e)
  {
    hide FindIn, FindRev;
  }

  /** A slot that takes a frame still takes the next of the same circuit. */
  lemma {:induction false} FindRevAfter(s: seq<Slot>, user: Call, dest: Call, kind: Kind, e: Setting, k: nat)
    requires k < |s| && FindRev(s, user, dest, e.arrive, e.now, 0) == k
    ensures FindRev(s[k := Some(Carry(s[k].value, kind, e.now))], user, dest, e.arrive, e.now, 0) == k
    ensures Carry(s[k].value, kind, e.now).port == s[k].value.port
  {
    hide FindRev, StateAt, NoteCtl;
    var t := s[k := Some(Carry(s[k].value, kind, e.now))];
    FindRevIsFirst(s, user, dest, e.arrive, e.now, 0);
    FindRevIsFirst(t, user, dest, e.arrive, e.now, 0);
    CarryKeepsIdentity(s[k].value, kind, e.now);
    NotExpiredYet(s[k].value, kind, e.now);
    assert Returns(t[k], user, dest, e.arrive, e.now);
  }

  /** The circuit in slot `k` is one whose answers `f` travels with. */
  predicate AnswersOn(s: seq<Slot>, k: nat, f: Frame, e: Setting)
    requires f.Valid()
  {
    k < |s| && s[k].Some? && s[k].value.user == f.IdAt(0) && s[k].value.dest == f.IdAt(1) &&
    s[k].value.ReturnsOn(e.arrive)
  }

  /** A contracted frame leaves toward the port its circuit's forward frames come in
      on. */
  lemma {:induction false} ContractedGoesBack(s: seq<Slot>, f: Frame, our: nat, e: Setting)
    requires WellPlaced(f, our)
    requires var o := Process(s, f, our, e).out; o.Sent? && o.act.Contracted?
    ensures our >= 3
    ensures exists k: nat :: AnswersOn(s, k, f, e) && s[k].value.OurHop(f.entries[our - 1]) &&
              SentToward(Process(s, f, our, e).out.toPort, s[k].value.port, MayCross(f.IdAt(0), f.IdAt(1), e), e)
  {
    hide FindIn, FindRev, StateAt, NoteCtl, ChoosePort, Forward, SentToward;
    var k, kind := ContractSlot(s, f, our, e), CtlKind(f.tail[0]);
    ForwardIsNoContraction(s, f, our, kind, e);
    var t, g := s[k := Some(Carry(s[k].value, kind, e.now))], Removed(f, our - 1);
    FindRevAfter(s, f.IdAt(0), f.IdAt(1), kind, e, k);
    RemovedKeepsStations(f, our);
    ReturningChooses(t, g, our - 1, e);
    assert AnswersOn(s, k, f, e);
  }

  lemma {:induction false} RemovedKeepsStations(f: Frame, our: nat)
    requires WellPlaced(f, our) && our >= 3
    ensures WellPlaced(Removed(f, our - 1), our - 1)
    ensures Removed(f, our - 1).IdAt(0) == f.IdAt(0) && Removed(f, our - 1).IdAt(1) == f.IdAt(1)
  {
  }

  lemma {:induction false} ForwardIsNoContraction(s: seq<Slot>, f: Frame, our: nat, kind: Kind, e: Setting)
    requires WellPlaced(f, our)
    ensures var o := Forward(s, f, our, kind, e).out; o.Sent? ==> !o.act.Contracted?
  {
    hide FindIn, ChoosePort, NoteAdjacent, Extend;
  }

  /** So does an answer at the node next to DEST, which has nothing to contract. */
  lemma {:induction false} FirstDigiGoesBack(s: seq<Slot>, f: Frame, e: Setting, k: nat)
    requires WellPlaced(f, 2) && !IsLast(f, 2) && f.tail != [] && e.enabled && Eligible(f, e)
    requires Sole(s, k, f.IdAt(0), f.IdAt(1)) && Held(s[k], e.now) && s[k].value.ReturnsOn(e.arrive)
    ensures var o := Process(s, f, 2, e).out;
            && o.Sent? && o.act == Plain
            && SentToward(o.toPort, s[k].value.port, MayCross(f.IdAt(0), f.IdAt(1), e), e)
  {
    hide FindIn, FindRev, StateAt, NoteCtl, ChoosePort;
    SoleReturns(s, k, f.IdAt(0), f.IdAt(1), e.arrive, e.now);
    ReturningChooses(s, f, 2, e);
  }

  predicate AllLive(s: seq<Slot>, now: int)
  {
    forall k :: 0 <= k < |s| ==> s[k].Some? && StateAt(now, s[k].value.lastUsed, s[k].value.closedAt) == Live
  }

  /** The circuit in slot `k` is that of the frame, and records `port` for its answers. */
  predicate Notes(s: seq<Slot>, k: nat, f: Frame, port: int, e: Setting)
    requires f.Valid()
  {
    CircuitOf(s, k, f, e) && s[k].value.OutEff() == port
  }

  lemma {:induction false} NotedSlot(s: seq<Slot>, f: Frame, i: int, port: int, kind: Kind, e: Setting)
    requires f.Valid() && i < |s| && port != 0 && f.IdAt(0) != f.IdAt(1) && Unclaimed(s, f, e)
    requires if i >= 0 then Matches(s[i], f.IdAt(1), f.IdAt(0), e.arrive, e.now)
             else forall k :: 0 <= k < |s| ==> !Matches(s[k], f.IdAt(1), f.IdAt(0), e.arrive, e.now)
    ensures var r := NoteAdjacent(s, f, i, port, kind, e);
            (AllLive(s, e.now) && i < 0) || (Unclaimed(r, f, e) && exists k: nat :: Notes(r, k, f, port, e))
  {
    hide StateAt, NoteCtl, FindIn;
    var user, dest := f.IdAt(1), f.IdAt(0);
    if i < 0 { AllocationPolicy(s, user, dest, e.arrive, e.now); }
    FindUnclaimed(s, f, e, true);
    FoundIsHeld(s, user, dest, e.arrive, true, e.now);
    var found := if i >= 0 then (s, i) else FindIn(s, user, dest, e.arrive, true, e.now);
    if found.1 >= 0 {
      var c := found.0[found.1].value;
      CarryKeepsIdentity(c.(outPort := port), kind, e.now);
      NotExpiredYet(c.(outPort := port), kind, e.now);
      assert Notes(NoteAdjacent(s, f, i, port, kind, e), found.1, f, port, e);
    }
  }

  /** A forward frame whose DEST is next to the node but on another port leaves on that
      port, and its circuit records it for the answers, unless every slot of the
      table holds a live circuit. */
  lemma {:induction false} AdjacentIsNoted(s: seq<Slot>, f: Frame, our: nat, e: Setting)
    requires WellPlaced(f, our) && IsLast(f, our) && f.tail != [] && e.enabled && Eligible(f, e)
    requires OnePerCircuit(s) && Unclaimed(s, f, e) && f.IdAt(0) != f.IdAt(1)
    requires e.route.Adjacent? && e.route.port != 0 && e.route.port != e.arrive
    requires e.crossport || Named(e.external, f.IdAt(0))
    requires forall k: nat :: CircuitOf(s, k, f, e) ==> s[k].value.pin.None?
    requires Process(s, f, our, e).out.Sent?
    ensures var r := Process(s, f, our, e);
            r.out.act == Plain &&
            (AllLive(s, e.now) ||
             (r.out.toPort == LeavesOn(e.route.port, e) && exists k: nat :: Notes(r.slots, k, f, e.route.port, e)))
  {
    hide FindIn, FindRev, StateAt, NoteCtl, ChoosePort, NoteAdjacent, Unclaimed, LeavesOn;
    var user, dest, kind := f.IdAt(1), f.IdAt(0), CtlKind(f.tail[0]);
    var found := FindIn(s, user, dest, e.arrive, false, e.now);
    var i := found.1;
    FoundIsHeld(s, user, dest, e.arrive, false, e.now);
    FoundOrNone(s, user, dest, e.arrive, e.now);
    FindKeepsUnique(s, user, dest, e.arrive, false, e.now);
    FindUnclaimed(s, f, e, false);
    UnclaimedIsNoRev(s, f, e);
    assert i >= 0 ==> found.0[i].value.pin.None? by {
      if i >= 0 { assert CircuitOf(s, i, f, e); }
    }
    NotedSlot(found.0, f, i, e.route.port, kind, e);
    var t := NoteAdjacent(found.0, f, i, e.route.port, kind, e);
    NoteAdjacentKeepsUnique(found.0, f, i, e.route.port, kind, e);
    if !AllLive(s, e.now) {
      StillNotLive(s, user, dest, e.arrive, e.now);
      var k: nat :| Notes(t, k, f, e.route.port, e);
      ChoosesRecordedPort(t, f, our, e, k);
      ChoosePortKeepsThriving(t, f, our, e, k);
      assert Notes(Process(s, f, our, e).slots, k, f, e.route.port, e);
    }
  }

  lemma {:induction false} FoundOrNone(s: seq<Slot>, user: Call, dest: Call, port: int, now: int)
    ensures var r := FindIn(s, user, dest, port, false, now);
            if r.1 >= 0 then Matches(s[r.1], user, dest, port, now) && r.0[r.1] == s[r.1]
            else forall k :: 0 <= k < |s| ==> !Matches(r.0[k], user, dest, port, now)
  {
    FirstMatchIsFirst(s, user, dest, port, now, 0);
  }

  lemma {:induction false} StillNotLive(s: seq<Slot>, user: Call, dest: Call, port: int, now: int)
    requires !AllLive(s, now)
    ensures !AllLive(FindIn(s, user, dest, port, false, now).0, now)
  {
    var t := FindIn(s, user, dest, port, false, now).0;
    var k :| 0 <= k < |s| && !(s[k].Some? && StateAt(now, s[k].value.lastUsed, s[k].value.closedAt) == Live);
    assert t[k] == s[k] || t[k].None?;
  }
}
