/** Whole runs: what a node does to every frame it ever sees, and what a chain
  * of nodes does to one connection.
  */
module TransitRuns {
  import opened Base
  import opened AxFrame
  import opened Circuits
  import opened Transit
  import opened TransitSteps

  // ----- one node, any frames

  datatype Arrival = Arrival(f: Frame, our: nat, e: Setting) {
    predicate Valid() { WellPlaced(f, our) }
  }

  predicate AllValid(run: seq<Arrival>) { forall i :: 0 <= i < |run| ==> run[i].Valid() }

  /** Table after the run. */
  function TableAfter(s: seq<Slot>, run: seq<Arrival>): (t: seq<Slot>)
    requires AllValid(run)
    ensures |t| == |s|
  {
    if run == [] then s
    else
      var a := run[|run| - 1];
      Process(TableAfter(s, run[..|run| - 1]), a.f, a.our, a.e).slots
  }

  /** What the node did with the `i`-th frame of the run. */
  function OutcomeAt(s: seq<Slot>, run: seq<Arrival>, i: nat): Outcome
    requires AllValid(run) && i < |run|
  {
    Process(TableAfter(s, run[..i]), run[i].f, run[i].our, run[i].e).out
  }

  predicate EmptyTable(s: seq<Slot>) { forall k :: 0 <= k < |s| ==> s[k].None? }

  /** The node appended `hop` on circuit (user, dest) while handling frame `i`. */
  predicate AppendedAt(s: seq<Slot>, run: seq<Arrival>, i: nat, user: Call, dest: Call, hop: Call)
    requires AllValid(run) && i < |run|
  {
    Appends(run[i].f, OutcomeAt(s, run, i), user, dest, hop)
  }

  lemma {:induction false} OutcomeOfPrefix(s: seq<Slot>, run: seq<Arrival>, n: nat, i: nat)
    requires AllValid(run) && i < n <= |run|
    ensures OutcomeAt(s, run[..n], i) == OutcomeAt(s, run, i)
  {
    assert run[..n][..i] == run[..i];
  }

  /** Every hop in the table was appended by this node, on that circuit. */
  lemma {:induction false} TableRemembersOnlyAppended(s: seq<Slot>, run: seq<Arrival>, k: nat, user: Call, dest: Call,
                                                      hop: Call)
    requires AllValid(run) && EmptyTable(s)
    requires k < |TableAfter(s, run)| && SlotHas(TableAfter(s, run)[k], user, dest, hop)
    ensures exists i :: 0 <= i < |run| && AppendedAt(s, run, i, user, dest, hop)
    decreases |run|
  {
    var n := |run| - 1;
    assert n >= 0;
    var before := run[..n];
    VisitHops(TableAfter(s, before), run[n].f, run[n].our, run[n].e);
    if !AppendedAt(s, run, n, user, dest, hop) {
      TableRemembersOnlyAppended(s, before, k, user, dest, hop);
      var i :| 0 <= i < |before| && AppendedAt(s, before, i, user, dest, hop);
      OutcomeOfPrefix(s, run, n, i);
      assert AppendedAt(s, run, i, user, dest, hop);
    }
  }

  /** Only our own hops are ever removed. Starting from an empty table, an entry
      removed by contraction is marked repeated, and the node appended that very
      hop earlier in the run, to a frame travelling the opposite way between the
      same two stations. */
  lemma {:induction false} OnlyOwnHopsRemoved(s: seq<Slot>, run: seq<Arrival>, j: nat)
    requires AllValid(run) && EmptyTable(s) && j < |run|
    requires OutcomeAt(s, run, j).Sent? && OutcomeAt(s, run, j).act.Contracted?
    ensures var a := run[j]; var hop := OutcomeAt(s, run, j).act.hop;
            && hop.h && a.our >= 3 && hop == a.f.entries[a.our - 1]
            && exists i :: 0 <= i < j && AppendedAt(s, run, i, a.f.IdAt(0), a.f.IdAt(1), hop.addr.Id())
  {
    var a := run[j];
    var t := TableAfter(s, run[..j]);
    ContractionOutcome(t, a.f, a.our, a.e);
    var hop := OutcomeAt(s, run, j).act.hop;
    var c := ContractSlot(t, a.f, a.our, a.e);
    assert SlotHas(t[c], a.f.IdAt(0), a.f.IdAt(1), hop.addr.Id());
    TableRemembersOnlyAppended(s, run[..j], c, a.f.IdAt(0), a.f.IdAt(1), hop.addr.Id());
    var i :| 0 <= i < j && AppendedAt(s, run[..j], i, a.f.IdAt(0), a.f.IdAt(1), hop.addr.Id());
    OutcomeOfPrefix(s, run, j, i);
    assert AppendedAt(s, run, i, a.f.IdAt(0), a.f.IdAt(1), hop.addr.Id());
  }

  /** In every reachable table there is at most one circuit per (user,
      destination, port). */
  lemma {:induction false} ReachableTablesUnique(s: seq<Slot>, run: seq<Arrival>)
    requires AllValid(run) && EmptyTable(s)
    ensures OnePerCircuit(TableAfter(s, run))
    decreases |run|
  {
    if run != [] {
      var a := run[|run| - 1];
      ReachableTablesUnique(s, run[..|run| - 1]);
      VisitKeepsUnique(TableAfter(s, run[..|run| - 1]), a.f, a.our, a.e);
    }
  }

  // ----- returning frames find the circuit

  /** `i` is the only slot in use for (user, dest), on whatever port. */
  predicate Sole(s: seq<Slot>, i: nat, user: Call, dest: Call)
  {
    && i < |s| && s[i].Some? && s[i].value.user == user && s[i].value.dest == dest
    && forall k :: 0 <= k < |s| && k != i && s[k].Some? ==> s[k].value.user != user || s[k].value.dest != dest
  }

  lemma {:induction false} SoleReturns(s: seq<Slot>, i: nat, user: Call, dest: Call, port: int, now: int)
    requires Sole(s, i, user, dest) && Held(s[i], now) && s[i].value.ReturnsOn(port)
    ensures FindRev(s, user, dest, port, now, 0) == i
  {
    var r := FindRev(s, user, dest, port, now, 0);
    FindRevIsFirst(s, user, dest, port, now, 0);
    assert Returns(s[i], user, dest, port, now);
    assert r >= 0;
  }

  /** A frame that returns over a hop the circuit knows is contracted. */
  lemma {:induction false} ReturningIsContracted(s: seq<Slot>, i: nat, f: Frame, our: nat, e: Setting)
    requires WellPlaced(f, our) && our >= 3 && e.enabled && f.tail != []
    requires Sole(s, i, f.IdAt(0), f.IdAt(1)) && Held(s[i], e.now) && s[i].value.ReturnsOn(e.arrive)
    requires s[i].value.OurHop(f.entries[our - 1])
    ensures var o := Process(s, f, our, e).out;
            && o.Sent? && o.act == Contracted(f.entries[our - 1])
            && o.frame == Removed(f, our - 1) && o.at == our - 1
  {
    SoleReturns(s, i, f.IdAt(0), f.IdAt(1), e.arrive, e.now);
    assert ContractSlot(s, f, our, e) == i;
    assert f.DigiCount() >= 2;
  }

  /** What a forward frame leaves behind in slot `i`. */
  predicate Pins(s: Slot, user: Call, dest: Call, hop: Call, now: int)
  {
    s.Some? && s.value.user == user && s.value.dest == dest && s.value.Pinned(hop) && s.value.lastUsed == now
  }

  lemma {:induction false} ChoosePortSlot(s: seq<Slot>, f: Frame, our: nat, e: Setting, i: nat)
    requires WellPlaced(f, our) && i < |s|
    ensures ChoosePort(s, f, our, e).0[i] == s[i] || ChoosePort(s, f, our, e).0[i] == Swept(s[i], e.now)
  {
  }

  lemma {:induction false} PinHopFacts(c: Circuit, next: Hop, port: int, pinned: bool, isNew: bool)
    requires !isNew && !pinned ==> c.pin.Some?
    requires pinned ==> c.pin == Some(next)
    ensures var p := PinHop(c, next, port, pinned, isNew);
            && p.Is(c.user, c.dest, c.port) && p.closedAt == c.closedAt && p.pin == Some(next)
  {
  }

  lemma {:induction false} NotExpiredYet(c: Circuit, kind: Kind, now: int)
    requires StateAt(now, c.lastUsed, c.closedAt) != Expired
    ensures StateAt(now, Carry(c, kind, now).lastUsed, Carry(c, kind, now).closedAt) != Expired
  {
  }

  lemma {:induction false} FoundIsHeld(s: seq<Slot>, user: Call, dest: Call, port: int, create: bool, now: int)
    ensures var r := FindIn(s, user, dest, port, create, now); r.1 >= 0 ==> Matches(r.0[r.1], user, dest, port, now)
  {
  }

  lemma {:induction false} ExtendPins(s: seq<Slot>, f: Frame, i: int, next: Hop, port: int, pinned: bool, kind: Kind,
                                      e: Setting)
    requires f.Valid() && i < |s| && (pinned ==> i >= 0)
    requires i >= 0 ==> Matches(s[i], f.IdAt(1), f.IdAt(0), e.arrive, e.now)
    requires pinned ==> s[i].value.pin == Some(next)
    requires Extend(s, f, i, next, port, pinned, kind, e).1.Some?
    ensures exists k :: 0 <= k < |s| && (i >= 0 ==> k == i) &&
              var t := Extend(s, f, i, next, port, pinned, kind, e).0[k];
              Pins(t, f.IdAt(1), f.IdAt(0), next.Id(), e.now) && Held(t, e.now) && t.value.port == e.arrive
  {
    var found := if i >= 0 then (s, i) else FindIn(s, f.IdAt(1), f.IdAt(0), e.arrive, true, e.now);
    FoundIsHeld(s, f.IdAt(1), f.IdAt(0), e.arrive, true, e.now);
    var k := found.1;
    var c := found.0[k].value;
    PinHopFacts(c, next, port, pinned, i < 0 || c.pin.None?);
    var p := PinHop(c, next, port, pinned, i < 0 || c.pin.None?);
    CarryKeepsIdentity(p, kind, e.now);
    if pinned {
      NotExpiredYet(c, kind, e.now);
    } else {
      NotExpiredYet(p.(lastUsed := c.lastUsed), kind, e.now);
    }
    assert Extend(s, f, i, next, port, pinned, kind, e).0[k] == Some(Carry(p, kind, e.now));
  }

  lemma {:induction false} ForwardViaPins(s: seq<Slot>, f: Frame, our: nat, i: int, next: Hop, port: int, pinned: bool,
                                          kind: Kind, e: Setting)
    requires WellPlaced(f, our) && i < |s| && (pinned ==> i >= 0)
    requires i >= 0 ==> Matches(s[i], f.IdAt(1), f.IdAt(0), e.arrive, e.now)
    requires pinned ==> s[i].value.pin == Some(next)
    requires ForwardVia(s, f, our, i, next, port, pinned, kind, e).out.act.Extended?
    ensures var r := ForwardVia(s, f, our, i, next, port, pinned, kind, e);
            && r.out.act.next == next
            && exists k :: 0 <= k < |r.slots| && Pins(r.slots[k], f.IdAt(1), f.IdAt(0), next.Id(), e.now)
  {
    hide Extend, ChoosePort;
    ExtendPins(s, f, i, next, port, pinned, kind, e);
    var x := Extend(s, f, i, next, port, pinned, kind, e);
    var k :| 0 <= k < |s| && (i >= 0 ==> k == i) &&
             Pins(x.0[k], f.IdAt(1), f.IdAt(0), next.Id(), e.now) && Held(x.0[k], e.now);
    ChoosePortSlot(x.0, x.1.value, our, e, k);
    var r := ForwardVia(s, f, our, i, next, port, pinned, kind, e);
    assert r.slots[k] == x.0[k];
    assert Pins(r.slots[k], f.IdAt(1), f.IdAt(0), next.Id(), e.now);
  }

  /** Extending a frame pins the hop it appended on the frame's circuit. */
  lemma {:induction false} ExtensionPins(s: seq<Slot>, f: Frame, our: nat, e: Setting)
    requires WellPlaced(f, our)
    requires Process(s, f, our, e).out.Sent? && Process(s, f, our, e).out.act.Extended?
    ensures var r := Process(s, f, our, e);
            exists k :: 0 <= k < |r.slots| && Pins(r.slots[k], f.IdAt(1), f.IdAt(0), r.out.act.next.Id(), e.now)
  {
    var kind := CtlKind(f.tail[0]);
    var found := FindIn(s, f.IdAt(1), f.IdAt(0), e.arrive, false, e.now);
    FoundIsHeld(s, f.IdAt(1), f.IdAt(0), e.arrive, false, e.now);
    var pick := PickHop(found.0, found.1, kind, e);
    ForwardViaPins(found.0, f, our, found.1, pick.0.next, pick.0.port, pick.1, kind, e);
  }
}
