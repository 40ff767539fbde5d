/** What one pass of a frame through a node guarantees. */
module TransitSteps {
  import opened Base
  import opened AxFrame
  import opened Circuits
  import opened Transit

  // ----- the three outcomes, read off the frame

  lemma {:induction false} ExtensionOutcome(s: seq<Slot>, f: Frame, our: nat, e: Setting)
    requires WellPlaced(f, our)
    requires Process(s, f, our, e).out.Sent? && Process(s, f, our, e).out.act.Extended?
    ensures var o := Process(s, f, our, e).out;
            && IsLast(f, our) && o.at == our
            && o.frame == Appended(f, o.act.next)
            && o.frame.Valid()
            && !f.Mentions(o.act.next.Id())
            && o.frame.DigiCount() <= Cap(e) <= MAX_DIGIS
            && o.frame.Length() <= MAX_FRAME
  {
  }

  lemma {:induction false} ContractionOutcome(s: seq<Slot>, f: Frame, our: nat, e: Setting)
    requires WellPlaced(f, our)
    requires Process(s, f, our, e).out.Sent? && Process(s, f, our, e).out.act.Contracted?
    ensures var o := Process(s, f, our, e).out;
            && our >= 3 && o.at == our - 1
            && o.act.hop == f.entries[our - 1] && o.act.hop.h
            && o.frame == Removed(f, our - 1)
            && o.frame.Valid()
  {
  }

  lemma {:induction false} PlainOutcome(s: seq<Slot>, f: Frame, our: nat, e: Setting)
    requires WellPlaced(f, our)
    requires Process(s, f, our, e).out.Sent? && Process(s, f, our, e).out.act.Plain?
    ensures Process(s, f, our, e).out.frame == f && Process(s, f, our, e).out.at == our
  {
  }

  // ----- forwarding terminates, whatever the tables say

  function PendingDigis(es: seq<Entry>): nat
  {
    if es == [] then 0 else (if es[0].h then 0 else 1) + PendingDigis(es[1..])
  }

  lemma {:induction false} PendingConcat(a: seq<Entry>, b: seq<Entry>)
    ensures PendingDigis(a + b) == PendingDigis(a) + PendingDigis(b)
  {
    if a == [] {
      assert a + b == b;
    } else {
      assert (a + b)[1..] == a[1..] + b;
      PendingConcat(a[1..], b);
    }
  }

  lemma {:induction false} PendingAround(es: seq<Entry>, i: nat, x: Entry)
    requires i < |es|
    ensures PendingDigis(es[i := x]) == PendingDigis(es) - PendingDigis([es[i]]) + PendingDigis([x])
    ensures PendingDigis(Without(es, i)) == PendingDigis(es) - PendingDigis([es[i]])
  {
    assert es == es[..i] + ([es[i]] + es[i + 1..]);
    assert es[i := x] == es[..i] + ([x] + es[i + 1..]);
    PendingConcat(es[..i], [es[i]] + es[i + 1..]);
    PendingConcat([es[i]], es[i + 1..]);
    PendingConcat(es[..i], [x] + es[i + 1..]);
    PendingConcat([x], es[i + 1..]);
    PendingConcat(es[..i], es[i + 1..]);
  }

  /** Visits a frame can still make: every visit lowers it. */
  function VisitsLeft(f: Frame): nat
    requires f.Valid()
  {
    2 * PendingDigis(f.entries) + MAX_DIGIS - f.DigiCount()
  }

  lemma {:induction false} VisitLowers(s: seq<Slot>, f: Frame, our: nat, e: Setting)
    requires WellPlaced(f, our) && !f.entries[our].h
    requires Process(s, f, our, e).out.Sent?
    ensures var o := Process(s, f, our, e).out; var g := Digipeated(o.frame, o.at);
            g.Valid() && VisitsLeft(g) < VisitsLeft(f)
  {
    hide Process, PendingDigis;
    var o := Process(s, f, our, e).out;
    match o.act {
      case Plain => PlainOutcome(s, f, our, e);
      case Extended(next) =>
        ExtensionOutcome(s, f, our, e);
        OnePending(Entry(next, false));
        PendingConcat(f.entries, [Entry(next, false)]);
      case Contracted(hop) =>
        ContractionOutcome(s, f, our, e);
        OnePending(hop);
        PendingAround(f.entries, our - 1, hop);
    }
    var es := o.frame.entries;
    OnePending(es[o.at]);
    OnePending(es[o.at].(h := true));
    PendingAround(es, o.at, es[o.at].(h := true));
  }

  lemma {:induction false} OnePending(e: Entry)
    ensures PendingDigis([e]) == if e.h then 0 else 1
  {
    assert [e][1..] == [];
  }

  /** One node's handling of a frame that reached it. */
  datatype Visit = Visit(slots: seq<Slot>, our: nat, e: Setting)

  /** The frame after a sequence of visits, each at an unrepeated entry of it;
      None once it is dropped or no node can take it. */
  function Journey(f: Frame, vs: seq<Visit>): (r: Option<Frame>)
    requires f.Valid()
    ensures r.Some? ==> r.value.Valid()
    decreases |vs|
  {
    if vs == [] then Some(f)
    else
      var v := vs[0];
      if !(WellPlaced(f, v.our) && !f.entries[v.our].h) then None
      else
        var o := Process(v.slots, f, v.our, v.e).out;
        if o.Dropped? then None
        else
          VisitLowers(v.slots, f, v.our, v.e);
          Journey(Digipeated(o.frame, o.at), vs[1..])
  }

  /** A frame is handled only finitely often across any nodes, whatever their
      circuit tables, routing tables and settings are, loops included. */
  lemma {:induction false} ForwardingTerminates(f: Frame, vs: seq<Visit>)
    requires f.Valid() && Journey(f, vs).Some?
    ensures |vs| <= VisitsLeft(f)
    decreases |vs|
  {
    if vs != [] {
      var v := vs[0];
      VisitLowers(v.slots, f, v.our, v.e);
      var o := Process(v.slots, f, v.our, v.e).out;
      ForwardingTerminates(Digipeated(o.frame, o.at), vs[1..]);
    }
  }

  predicate NoRepeatedCall(f: Frame)
  {
    forall i, j :: 0 <= i < j < |f.entries| ==> f.IdAt(i) != f.IdAt(j)
  }

  lemma {:induction false} AppendKeepsDistinct(f: Frame, next: Hop)
    requires NoRepeatedCall(f) && !f.Mentions(next.Id())
    ensures NoRepeatedCall(Appended(f, next))
  {
    var g := Appended(f, next);
    assert forall i :: 0 <= i < |f.entries| ==> g.IdAt(i) == f.IdAt(i) != next.Id();
  }

  lemma {:induction false} RemoveKeepsDistinct(f: Frame, k: nat)
    requires k < |f.entries| && NoRepeatedCall(f)
    ensures NoRepeatedCall(Removed(f, k))
  {
    var g := Removed(f, k);
    assert forall i :: 0 <= i < |g.entries| ==> g.IdAt(i) == f.IdAt(if i < k then i else i + 1);
  }

  lemma {:induction false} DigipeatKeepsDistinct(f: Frame, our: nat)
    requires our < |f.entries| && NoRepeatedCall(f)
    ensures NoRepeatedCall(Digipeated(f, our))
  {
    var g := Digipeated(f, our);
    assert forall i :: 0 <= i < |g.entries| ==> g.IdAt(i) == f.IdAt(i);
  }

  lemma {:induction false} VisitKeepsCallsDistinct(s: seq<Slot>, f: Frame, our: nat, e: Setting)
    requires WellPlaced(f, our) && NoRepeatedCall(f)
    requires Process(s, f, our, e).out.Sent?
    ensures var o := Process(s, f, our, e).out;
            o.at < |o.frame.entries| && NoRepeatedCall(Digipeated(o.frame, o.at))
  {
    hide Process;
    var o := Process(s, f, our, e).out;
    match o.act {
      case Plain => PlainOutcome(s, f, our, e);
      case Extended(next) =>
        ExtensionOutcome(s, f, our, e);
        AppendKeepsDistinct(f, next);
      case Contracted(hop) =>
        ContractionOutcome(s, f, our, e);
        RemoveKeepsDistinct(f, our - 1);
    }
    DigipeatKeepsDistinct(o.frame, o.at);
  }

  /** A frame whose calls are distinct keeps them distinct over any journey, and
      never carries more than eight digipeaters. */
  lemma {:induction false} JourneyKeepsCallsDistinct(f: Frame, vs: seq<Visit>)
    requires f.Valid() && NoRepeatedCall(f) && Journey(f, vs).Some?
    ensures NoRepeatedCall(Journey(f, vs).value) && Journey(f, vs).value.DigiCount() <= MAX_DIGIS
    decreases |vs|
  {
    if vs != [] {
      var v := vs[0];
      VisitLowers(v.slots, f, v.our, v.e);
      VisitKeepsCallsDistinct(v.slots, f, v.our, v.e);
      var o := Process(v.slots, f, v.our, v.e).out;
      JourneyKeepsCallsDistinct(Digipeated(o.frame, o.at), vs[1..]);
    }
  }

  // ----- what a visit does to the circuit table

  predicate SlotHas(s: Slot, user: Call, dest: Call, hop: Call)
  {
    s.Some? && s.value.user == user && s.value.dest == dest && (s.value.Pinned(hop) || s.value.WasPinned(hop))
  }

  /** No slot of `t` knows a hop that the same slot of `s` did not know. */
  ghost predicate NoNewHops(s: seq<Slot>, t: seq<Slot>)
  {
    |s| == |t| && forall k, u, d, h :: 0 <= k < |t| && SlotHas(t[k], u, d, h) ==> SlotHas(s[k], u, d, h)
  }

  lemma {:induction false} FindNoNewHops(s: seq<Slot>, user: Call, dest: Call, port: int, create: bool, now: int)
    ensures NoNewHops(s, FindIn(s, user, dest, port, create, now).0)
  {
  }

  lemma {:induction false} ChoosePortNoNewHops(s: seq<Slot>, f: Frame, our: nat, e: Setting)
    requires WellPlaced(f, our)
    ensures NoNewHops(s, ChoosePort(s, f, our, e).0)
  {
    FindNoNewHops(s, f.IdAt(1), f.IdAt(0), e.arrive, false, e.now);
  }

  /** The hop an outcome appended, for the circuit (ORIGIN, DEST) of its frame. */
  predicate Appends(f: Frame, o: Outcome, user: Call, dest: Call, hop: Call)
    requires f.Valid()
  {
    o.Sent? && o.act.Extended? && f.IdAt(1) == user && f.IdAt(0) == dest && o.act.next.Id() == hop
  }

  lemma {:induction false} ExtendHops(s: seq<Slot>, f: Frame, i: int, next: Hop, port: int, pinned: bool, kind: Kind,
                                      e: Setting)
    requires f.Valid() && i < |s| && (i >= 0 ==> s[i].Some?) && (pinned ==> i >= 0 && s[i].value.pin.Some?)
    requires i >= 0 ==> s[i].value.user == f.IdAt(1) && s[i].value.dest == f.IdAt(0)
    ensures var x := Extend(s, f, i, next, port, pinned, kind, e);
            && (x.1.None? ==> NoNewHops(s, x.0))
            && (forall k, u, d, h :: 0 <= k < |s| && SlotHas(x.0[k], u, d, h) ==>
                  SlotHas(s[k], u, d, h) || (u == f.IdAt(1) && d == f.IdAt(0) && h == next.Id()))
  {
    if i < 0 { FindNoNewHops(s, f.IdAt(1), f.IdAt(0), e.arrive, true, e.now); }
  }

  /** A visit teaches the table nothing but the hop it appended. */
  lemma {:induction false} VisitHops(s: seq<Slot>, f: Frame, our: nat, e: Setting)
    requires WellPlaced(f, our)
    ensures var r := Process(s, f, our, e);
            && |r.slots| == |s|
            && forall k, u, d, h :: 0 <= k < |s| && SlotHas(r.slots[k], u, d, h) ==>
                 SlotHas(s[k], u, d, h) || Appends(f, r.out, u, d, h)
  {
    hide Forward, ChoosePort, FindRev, NoteCtl, Eligible;
    if !e.enabled || !Eligible(f, e) || f.tail == [] {
      return;
    }
    var kind := CtlKind(f.tail[0]);
    var c := ContractSlot(s, f, our, e);
    if c >= 0 {
      var t := s[c := Some(Carry(s[c].value, kind, e.now))];
      CarryKeepsIdentity(s[c].value, kind, e.now);
      assert NoNewHops(s, t);
      ChoosePortNoNewHops(t, Removed(f, our - 1), our - 1, e);
    } else if !IsLast(f, our) {
      ChoosePortNoNewHops(s, f, our, e);
    } else {
      ForwardHops(s, f, our, kind, e);
    }
  }

  lemma {:induction false} NoteAdjacentHops(s: seq<Slot>, f: Frame, i: int, port: int, kind: Kind, e: Setting)
    requires f.Valid() && i < |s| && (i >= 0 ==> s[i].Some?)
    ensures NoNewHops(s, NoteAdjacent(s, f, i, port, kind, e))
  {
    FindNoNewHops(s, f.IdAt(1), f.IdAt(0), e.arrive, true, e.now);
  }

  lemma {:induction false} ForwardHops(s: seq<Slot>, f: Frame, our: nat, kind: Kind, e: Setting)
    requires WellPlaced(f, our) && IsLast(f, our)
    ensures var r := Forward(s, f, our, kind, e);
            && |r.slots| == |s|
            && forall k, u, d, h :: 0 <= k < |s| && SlotHas(r.slots[k], u, d, h) ==>
                 SlotHas(s[k], u, d, h) || Appends(f, r.out, u, d, h)
  {
    var found := FindIn(s, f.IdAt(1), f.IdAt(0), e.arrive, false, e.now);
    FindNoNewHops(s, f.IdAt(1), f.IdAt(0), e.arrive, false, e.now);
    if !(found.1 >= 0 && SelfRepeated(f, our)) {
      var pick := PickHop(found.0, found.1, kind, e);
      if pick.0.Via? {
        ForwardViaHops(found.0, f, our, found.1, pick.0.next, pick.0.port, pick.1, kind, e);
      } else {
        ChoosePortNoNewHops(found.0, f, our, e);
        if pick.0.Adjacent? {
          NoteAdjacentHops(found.0, f, found.1, pick.0.port, kind, e);
          ChoosePortNoNewHops(NoteAdjacent(found.0, f, found.1, pick.0.port, kind, e), f, our, e);
        }
      }
    }
  }

  lemma {:induction false} ForwardViaHops(s: seq<Slot>, f: Frame, our: nat, i: int, next: Hop, port: int, pinned: bool,
                                          kind: Kind, e: Setting)
    requires WellPlaced(f, our) && IsLast(f, our)
    requires i < |s| && (i >= 0 ==> s[i].Some?) && (pinned ==> i >= 0 && s[i].value.pin.Some?)
    requires i >= 0 ==> s[i].value.user == f.IdAt(1) && s[i].value.dest == f.IdAt(0)
    ensures var r := ForwardVia(s, f, our, i, next, port, pinned, kind, e);
            && |r.slots| == |s|
            && forall k, u, d, h :: 0 <= k < |s| && SlotHas(r.slots[k], u, d, h) ==>
                 SlotHas(s[k], u, d, h) || Appends(f, r.out, u, d, h)
  {
    if MayExtend(f, next, port, e) {
      ExtendHops(s, f, i, next, port, pinned, kind, e);
      var x := Extend(s, f, i, next, port, pinned, kind, e);
      if x.1.Some? {
        ChoosePortNoNewHops(x.0, x.1.value, our, e);
      }
    }
  }

  // ----- at most one circuit per (user, destination, port)

  lemma {:induction false} CarryKeepsUnique(s: seq<Slot>, i: nat, c: Circuit)
    requires OnePerCircuit(s) && i < |s| && s[i].Some?
    requires c.Is(s[i].value.user, s[i].value.dest, s[i].value.port)
    ensures OnePerCircuit(s[i := Some(c)])
  {
  }

  lemma {:induction false} ChoosePortKeepsUnique(s: seq<Slot>, f: Frame, our: nat, e: Setting)
    requires WellPlaced(f, our) && OnePerCircuit(s)
    ensures OnePerCircuit(ChoosePort(s, f, our, e).0)
  {
    FindKeepsUnique(s, f.IdAt(1), f.IdAt(0), e.arrive, false, e.now);
  }

  lemma {:induction false} ReleaseKeepsUnique(s: seq<Slot>, i: nat)
    requires OnePerCircuit(s) && i < |s|
    ensures OnePerCircuit(s[i := None])
  {
  }

  lemma {:induction false} CarryKeepsIdentity(c: Circuit, kind: Kind, now: int)
    ensures Carry(c, kind, now).Is(c.user, c.dest, c.port)
    ensures Carry(c, kind, now).pin == c.pin && Carry(c, kind, now).prev == c.prev
    ensures Carry(c, kind, now).outPort == c.outPort && Carry(c, kind, now).prevOutPort == c.prevOutPort
    ensures Carry(c, kind, now).lastUsed == now
  {
  }

  lemma {:induction false} ExtendKeepsUnique(s: seq<Slot>, f: Frame, i: int, next: Hop, port: int, pinned: bool,
                                             kind: Kind, e: Setting)
    requires f.Valid() && i < |s| && (i >= 0 ==> s[i].Some?) && (pinned ==> i >= 0 && s[i].value.pin.Some?)
    requires OnePerCircuit(s)
    ensures OnePerCircuit(Extend(s, f, i, next, port, pinned, kind, e).0)
  {
    var found := if i >= 0 then (s, i) else FindIn(s, f.IdAt(1), f.IdAt(0), e.arrive, true, e.now);
    FindKeepsUnique(s, f.IdAt(1), f.IdAt(0), e.arrive, true, e.now);
    if found.1 >= 0 {
      var c := found.0[found.1].value;
      var isNew := i < 0 || c.pin.None?;
      ReleaseKeepsUnique(found.0, found.1);
      var p := PinHop(c, next, port, pinned, isNew);
      CarryKeepsIdentity(p, kind, e.now);
      CarryKeepsUnique(found.0, found.1, Carry(p, kind, e.now));
    }
  }

  lemma {:induction false} NoteAdjacentKeepsUnique(s: seq<Slot>, f: Frame, i: int, port: int, kind: Kind, e: Setting)
    requires f.Valid() && i < |s| && (i >= 0 ==> s[i].Some?)
    requires OnePerCircuit(s)
    ensures OnePerCircuit(NoteAdjacent(s, f, i, port, kind, e))
  {
    var found := if i >= 0 then (s, i) else FindIn(s, f.IdAt(1), f.IdAt(0), e.arrive, true, e.now);
    FindKeepsUnique(s, f.IdAt(1), f.IdAt(0), e.arrive, true, e.now);
    if found.1 >= 0 {
      var c := found.0[found.1].value.(outPort := port);
      CarryKeepsIdentity(c, kind, e.now);
      CarryKeepsUnique(found.0, found.1, Carry(c, kind, e.now));
    }
  }

  lemma {:induction false} ForwardKeepsUnique(s: seq<Slot>, f: Frame, our: nat, kind: Kind, e: Setting)
    requires WellPlaced(f, our) && OnePerCircuit(s)
    ensures OnePerCircuit(Forward(s, f, our, kind, e).slots)
  {
    var found := FindIn(s, f.IdAt(1), f.IdAt(0), e.arrive, false, e.now);
    FindKeepsUnique(s, f.IdAt(1), f.IdAt(0), e.arrive, false, e.now);
    var pick := PickHop(found.0, found.1, kind, e);
    if pick.0.Via? {
      ForwardViaKeepsUnique(found.0, f, our, found.1, pick.0.next, pick.0.port, pick.1, kind, e);
    } else {
      ChoosePortKeepsUnique(found.0, f, our, e);
      if pick.0.Adjacent? {
        NoteAdjacentKeepsUnique(found.0, f, found.1, pick.0.port, kind, e);
        ChoosePortKeepsUnique(NoteAdjacent(found.0, f, found.1, pick.0.port, kind, e), f, our, e);
      }
    }
  }

  lemma {:induction false} ForwardViaKeepsUnique(s: seq<Slot>, f: Frame, our: nat, i: int, next: Hop, port: int,
                                                 pinned: bool, kind: Kind, e: Setting)
    requires WellPlaced(f, our) && OnePerCircuit(s)
    requires i < |s| && (i >= 0 ==> s[i].Some?) && (pinned ==> i >= 0 && s[i].value.pin.Some?)
    ensures OnePerCircuit(ForwardVia(s, f, our, i, next, port, pinned, kind, e).slots)
  {
    ExtendKeepsUnique(s, f, i, next, port, pinned, kind, e);
    var x := Extend(s, f, i, next, port, pinned, kind, e);
    if MayExtend(f, next, port, e) && x.1.Some? {
      ChoosePortKeepsUnique(x.0, x.1.value, our, e);
    }
  }

  lemma {:induction false} VisitKeepsUnique(s: seq<Slot>, f: Frame, our: nat, e: Setting)
    requires WellPlaced(f, our) && OnePerCircuit(s)
    ensures OnePerCircuit(Process(s, f, our, e).slots)
  {
    if e.enabled && Eligible(f, e) && f.tail != [] {
      var kind := CtlKind(f.tail[0]);
      var c := ContractSlot(s, f, our, e);
      if c >= 0 {
        CarryKeepsIdentity(s[c].value, kind, e.now);
        CarryKeepsUnique(s, c, Carry(s[c].value, kind, e.now));
        ChoosePortKeepsUnique(s[c := Some(Carry(s[c].value, kind, e.now))], Removed(f, our - 1), our - 1, e);
      } else if !IsLast(f, our) {
        ChoosePortKeepsUnique(s, f, our, e);
      } else {
        ForwardKeepsUnique(s, f, our, kind, e);
      }
    }
  }
}
