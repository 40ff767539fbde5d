/** FlexNet_L2Transit on its own data: the byte buffer and the circuit table,
  * both edited in place, against the one-step specification in `Transit`.
  */
module L2Node {
  import opened Base
  import opened AxFrame
  import opened Circuits
  import opened Transit

  /** The seven bytes of a hop as the table stores them. */
  function Raw(a: Hop): (b: seq<bv8>)
    ensures |b| == 7 && AddrOf(b) == a
  {
    assert a.mid & 0x81 == 0 ==> a.mid & 0x7E == a.mid;
    a.base + [a.mid]
  }

  class TransitNode {
    const table: CircuitTable

    ghost predicate Valid()
      reads this, table
    {
      table.Valid()
    }

    ghost function Slots(): seq<Slot>
      reads this, table, table.slots
    {
      table.slots[..]
    }

    constructor ()
      ensures Valid() && fresh(table) && fresh(table.slots)
      ensures forall i :: 0 <= i < |Slots()| ==> Slots()[i].None?
    {
      table := new CircuitTable();
    }

    /** flex_l2_remove_digi of entry `i` of the frame the buffer holds. */
    method RemoveEntry(buf: FrameBuffer, ghost f: Frame, i: nat)
      requires buf.Holds(f) && 2 <= i < |f.entries|
      modifies buf, buf.data
      ensures buf.Holds(Removed(f, i))
    {
      RemoveRefines(f, i);
      var ok := buf.RemoveDigi(7 * i);
      assert Removed(f, i).Valid();
    }

    method AppendEntry(buf: FrameBuffer, ghost f: Frame, next: Hop) returns (ok: bool)
      requires buf.Holds(f) && f.DigiCount() < MAX_DIGIS
      modifies buf, buf.data
      ensures ok == (f.Length() + 7 <= MAX_FRAME)
      ensures buf.Holds(if ok then Appended(f, next) else f)
    {
      ghost var b := buf.data[..];
      assert Encode(f) <= b;
      LastFromFinds(f, b, 0);
      AppendRefines(f, Raw(next));
      ok := buf.AppendDigi(Raw(next));
      assert Appended(f, next).Valid();
      if !ok {
        assert buf.Bytes() == buf.data[..][..buf.len] == b[..buf.len];
      }
    }

    method MentionsCall(buf: FrameBuffer, ghost f: Frame, next: Hop) returns (found: bool)
      requires buf.Holds(f)
      ensures found == f.Mentions(next.Id())
    {
      assert Encode(f) <= buf.data[..];
      InChainIsMentions(f, buf.data[..], Raw(next));
      found := buf.CallInChain(Raw(next));
    }

    /** flex_l2_self_repeated */
    method SeenBefore(buf: FrameBuffer, ghost f: Frame, our: nat) returns (found: bool)
      requires buf.Holds(f) && WellPlaced(f, our)
      ensures found == SelfRepeated(f, our)
    {
      var me, _, _ := buf.EntryAt(f, our);
      var i := 2;
      while i < our
        invariant 2 <= i <= our
        invariant forall k :: 2 <= k < i ==> !(f.entries[k].h && f.IdAt(k) == f.IdAt(our))
      {
        var c, h, _ := buf.EntryAt(f, i);
        if h && c == me {
          return true;
        }
        i := i + 1;
      }
      return false;
    }

    method SelectPort(buf: FrameBuffer, ghost f: Frame, our: nat, e: Setting) returns (toPort: int)
      requires Valid() && buf.Holds(f) && WellPlaced(f, our) && buf.data != table.slots as object
      modifies table.slots
      ensures (Slots(), toPort) == ChoosePort(old(Slots()), f, our, e)
      ensures buf.Holds(f)
    {
      hide FindIn, FindRev, Encode;
      var _, _, last := buf.EntryAt(f, our);
      var dest, _, _ := buf.EntryAt(f, 0);
      var origin, _, _ := buf.EntryAt(f, 1);
      var next := dest;
      if !last {
        var following, _, _ := buf.EntryAt(f, our + 1);
        next := following;
      }
      var ext := PortOf(e.external, next);
      if !(e.crossport || ext != 0 || PortOf(e.external, dest) != 0 || PortOf(e.external, origin) != 0) {
        return 0;
      }
      var rev := table.FindReturning(dest, origin, e.arrive, e.now);
      var revPort := if rev >= 0 then table.slots[rev].value.port else 0;
      var fwd := table.Find(origin, dest, e.arrive, false, e.now);
      var out := OutPort(e.arrive, revPort, if fwd >= 0 then table.slots[fwd].value.OutEff() else 0,
                         ext, PortOf(e.neighbours, next));
      if out == e.arrive || !e.digipeats || out !in e.ports {
        return 0;
      }
      return out;
    }

    /** flex_l2_extend: record `next` on the circuit and append it to the frame. */
    method ExtendFrame(buf: FrameBuffer, ghost f: Frame, slot: int, next: Hop, port: int, pinned: bool, kind: Kind,
                       e: Setting) returns (ok: bool)
      requires Valid() && buf.Holds(f) && f.DigiCount() < MAX_DIGIS && buf.data != table.slots as object
      requires slot < table.slots.Length && (slot >= 0 ==> table.slots[slot].Some?)
      requires pinned ==> slot >= 0 && table.slots[slot].value.pin.Some?
      modifies table.slots, buf, buf.data
      ensures var x := Extend(old(Slots()), f, slot, next, port, pinned, kind, e);
              && Slots() == x.0
              && ok == x.1.Some?
              && buf.Holds(if ok then x.1.value else f)
    {
      hide FindIn, StateAt, NoteCtl, Encode;
      var i := slot;
      var dest, _, _ := buf.EntryAt(f, 0);
      var origin, _, _ := buf.EntryAt(f, 1);
      var isNew := slot < 0;
      if slot < 0 {
        i := table.Find(origin, dest, e.arrive, true, e.now);
        if i < 0 {
          return false;
        }
      }
      var c := table.slots[i].value;
      if c.pin.None? {
        isNew := true;
      }
      ghost var held := Slots();
      ok := AppendEntry(buf, f, next);
      assert Slots() == held;
      if !ok {
        if isNew {
          table.slots[i] := None;
        }
        return;
      }
      if !pinned && !isNew && c.pin.value.Id() != next.Id() {
        c := c.(prev := c.pin, prevOutPort := c.OutEff());
      }
      if !pinned {
        c := c.(pin := Some(next), outPort := port);
      }
      table.slots[i] := Some(NoteCtl(c.(lastUsed := e.now), kind, e.now));
    }

    /** flex_l2_note_adjacent */
    method RecordAdjacent(buf: FrameBuffer, ghost f: Frame, slot: int, port: int, kind: Kind, e: Setting)
      requires Valid() && buf.Holds(f) && buf.data != table.slots as object
      requires slot < table.slots.Length && (slot >= 0 ==> table.slots[slot].Some?)
      modifies table.slots
      ensures Slots() == NoteAdjacent(old(Slots()), f, slot, port, kind, e)
      ensures buf.Holds(f)
    {
      hide FindIn, StateAt, NoteCtl, Encode;
      var i := slot;
      if slot < 0 {
        var dest, _, _ := buf.EntryAt(f, 0);
        var origin, _, _ := buf.EntryAt(f, 1);
        i := table.Find(origin, dest, e.arrive, true, e.now);
        if i < 0 {
          return;
        }
      }
      table.slots[i] := Some(NoteCtl(table.slots[i].value.(outPort := port).(lastUsed := e.now), kind, e.now));
    }

    /** flex_l2_contract: drop the hop before us if our table says we put it there. */
    method Contract(buf: FrameBuffer, ghost f: Frame, our: nat, kind: Kind, e: Setting) returns (moved: bool)
      requires Valid() && buf.Holds(f) && WellPlaced(f, our) && our >= 3 && buf.data != table.slots as object
      modifies table.slots, buf, buf.data
      ensures var r := ContractSlot(old(Slots()), f, our, e);
              && moved == (r >= 0)
              && (if moved then Slots() == old(Slots())[r := Some(Carry(old(Slots())[r].value, kind, e.now))]
                   else Slots() == old(Slots()))
              && buf.Holds(if moved then Removed(f, our - 1) else f)
    {
      hide FindRev, StateAt, NoteCtl, Encode;
      var dest, _, _ := buf.EntryAt(f, 0);
      var origin, _, _ := buf.EntryAt(f, 1);
      var prev, h, _ := buf.EntryAt(f, our - 1);
      var r := table.FindReturning(dest, origin, e.arrive, e.now);
      if r < 0 || !(h && (table.slots[r].value.Pinned(prev) || table.slots[r].value.WasPinned(prev))) {
        return false;
      }
      RemoveEntry(buf, f, our - 1);
      table.slots[r] := Some(NoteCtl(table.slots[r].value.(lastUsed := e.now), kind, e.now));
      return true;
    }
 
    /** flex_l2_pick_hop */
    method PickNext(slot: int, kind: Kind, e: Setting) returns (route: Route, pinned: bool)
      requires Valid()
      requires slot < table.slots.Length && (slot >= 0 ==> table.slots[slot].Some?)
      ensures (route, pinned) == PickHop(Slots(), slot, kind, e)
    {
      if slot >= 0 && table.slots[slot].value.pin.Some? {
        var c := table.slots[slot].value;
        if !MustRepin(c.closedAt != 0, kind, c.pin.value.Id() in e.live) {
          return Via(c.pin.value, c.OutEff()), true;
        }
      }
      return e.route, false;
    }

    /** The forward path, once a next hop is known. */
    method ForwardTo(buf: FrameBuffer, ghost f: Frame, our: nat, slot: int, next: Hop, port: int, pinned: bool,
                     kind: Kind, e: Setting)
      returns (toPort: int)
      requires Valid() && buf.Holds(f) && WellPlaced(f, our) && buf.data != table.slots as object
      requires slot < table.slots.Length && (slot >= 0 ==> table.slots[slot].Some?)
      requires pinned ==> slot >= 0 && table.slots[slot].value.pin.Some?
      modifies table.slots, buf, buf.data
      ensures var r := ForwardVia(old(Slots()), f, our, slot, next, port, pinned, kind, e);
              && r.out.Sent? && r.out.at == our && Slots() == r.slots && toPort == r.out.toPort &&
                   buf.Holds(r.out.frame)
    {
      hide Extend, ChoosePort, Encode;
      var looped := MentionsCall(buf, f, next);
      assert Encode(f) <= buf.data[..];
      DigisInCounts(f, buf.data[..]);
      var digis := buf.CountDigis();
      if looped || (port != e.arrive && !e.crossport) || digis >= Cap(e) {
        return 0;
      }
      var ok := ExtendFrame(buf, f, slot, next, port, pinned, kind, e);
      if !ok {
        return 0;
      }
      toPort := SelectPort(buf, Appended(f, next), our, e);
    }

    /** The forward path: we are the last digipeater. */
    method ForwardFrame(buf: FrameBuffer, ghost f: Frame, our: nat, kind: Kind, e: Setting) returns (dropped: bool,
                        toPort: int)
      requires Valid() && buf.Holds(f) && WellPlaced(f, our) && IsLast(f, our) && buf.data != table.slots as object
      modifies table.slots, buf, buf.data
      ensures var r := Forward(old(Slots()), f, our, kind, e);
              && Slots() == r.slots && dropped == r.out.Dropped?
              && (!dropped ==> r.out.at == our && toPort == r.out.toPort && buf.Holds(r.out.frame))
    {
      hide FindIn, ChoosePort, ForwardVia, PickHop, NoteAdjacent, Encode;
      var dest, _, _ := buf.EntryAt(f, 0);
      var origin, _, _ := buf.EntryAt(f, 1);
      var slot := table.Find(origin, dest, e.arrive, false, e.now);
      toPort, dropped := 0, false;
      var seen := SeenBefore(buf, f, our);
      if slot >= 0 && seen {
        dropped := true;
        return;
      }
      var route, pinned := PickNext(slot, kind, e);
      match route {
        case NoRoute =>
          toPort := SelectPort(buf, f, our, e);
        case Adjacent(p) =>
          if p != 0 && p != e.arrive && (e.crossport || PortOf(e.external, dest) != 0) {
            RecordAdjacent(buf, f, slot, p, kind, e);
          }
          toPort := SelectPort(buf, f, our, e);
        case Via(next, port) =>
          PinnedHasPin(Slots(), slot, kind, e);
          toPort := ForwardTo(buf, f, our, slot, next, port, pinned, kind, e);
      }
    }

    /** The rewriting proper, for an eligible frame with a control byte. */
    method Rewrite(buf: FrameBuffer, ghost f: Frame, our: nat, kind: Kind, e: Setting) returns (dropped: bool, at: nat,
                   toPort: int)
      requires Valid() && buf.Holds(f) && WellPlaced(f, our) && buf.data != table.slots as object
      requires e.enabled && Eligible(f, e) && f.tail != [] && kind == CtlKind(f.tail[0])
      modifies table.slots, buf, buf.data
      ensures var r := Process(old(Slots()), f, our, e);
              && Slots() == r.slots && dropped == r.out.Dropped?
              && (!dropped ==> at == r.out.at && toPort == r.out.toPort && buf.Holds(r.out.frame))
    {
      hide ChoosePort, Forward, ContractSlot, Encode, CtlKind;
      dropped, at, toPort := false, our, 0;
      if our >= 3 {
        var moved := Contract(buf, f, our, kind, e);
        if moved {
          at := our - 1;
          toPort := SelectPort(buf, Removed(f, our - 1), at, e);
          return;
        }
      } else {
        TooEarlyToContract(Slots(), f, our, e);
      }
      var _, _, last := buf.EntryAt(f, our);
      if !last {
        toPort := SelectPort(buf, f, our, e);
        return;
      }
      dropped, toPort := ForwardFrame(buf, f, our, kind, e);
    }

    /** The buffer's address field ends within ten entries, with a control byte behind it. */
    ghost predicate Readable(buf: FrameBuffer)
      requires buf.Valid()
      reads buf, buf.data
    {
      var last := LastFrom(buf.data[..], 0); 0 <= last && last + 8 <= buf.len
    }

    /** The frame such a buffer holds. */
    ghost function FrameIn(buf: FrameBuffer): (f: Frame)
      requires buf.Valid() && Readable(buf) && LastFrom(buf.data[..], 0) >= 7
      reads buf, buf.data
      ensures buf.Holds(f) && 7 * (|f.entries| - 1) == LastFrom(buf.data[..], 0) && f.tail != []
    {
      DecodeRoundTrip(buf.data[..], buf.len);
      assert buf.data[..][..buf.len] == buf.Bytes();
      Decode(buf.Bytes(), LastFrom(buf.data[..], 0))
    }

    /** FlexNet_L2Transit, on any bytes: `our` is the entry, among the digipeaters, that
        the caller found our call in. A buffer without a complete address field and
        control byte is left alone; otherwise the frame in it and the circuit table
        become what `Process` says, `at` being our entry afterwards. */
    method L2Transit(buf: FrameBuffer, our: nat, e: Setting) returns (dropped: bool, at: nat, toPort: int)
      requires Valid() && buf.Valid() && buf.data != table.slots as object
      requires our >= 2 && (LastFrom(buf.data[..], 0) >= 0 ==> 7 * our <= LastFrom(buf.data[..], 0))
      modifies table.slots, buf, buf.data
      ensures !old(Readable(buf)) ==>
                !dropped && at == our && toPort == 0 && Slots() == old(Slots())
                && buf.len == old(buf.len) && buf.data[..] == old(buf.data[..])
      ensures old(Readable(buf)) ==>
                WellPlaced(old(FrameIn(buf)), our) &&
                var r := Process(old(Slots()), old(FrameIn(buf)), our, e);
                && Slots() == r.slots && dropped == r.out.Dropped?
                && (!dropped ==> at == r.out.at && toPort == r.out.toPort && buf.Holds(r.out.frame))
    {
      hide Process, Encode, CtlKind, LastFrom, DigisIn, CallIn;
      dropped, at, toPort := false, our, 0;
      ghost var readable := Readable(buf);
      ghost var f := if readable then FrameIn(buf) else Frame([], []);
      if readable {
        assert Encode(f) <= buf.data[..];
        DigisInCounts(f, buf.data[..]);
        if !e.enabled || !Eligible(f, e) { IneligibleIsPlain(Slots(), f, our, e); }
      }
      if !e.enabled {
        return;
      }
      var dest := buf.CallAt(0);
      var origin := buf.CallAt(1);
      var digis := buf.CountDigis();
      if !e.originMapped && digis < 2 && PortOf(e.external, dest) == 0 && PortOf(e.external, origin) == 0 &&
         !(e.crossport && e.carriesFlexNet) {
        return;
      }
      var last := buf.AddrLast();
      if last < 0 || last + 8 > buf.len {
        return;
      }
      assert buf.data[last + 7] == buf.Bytes()[last + 7];
      ControlIs(f, buf.Bytes(), last);
      dropped, at, toPort := Rewrite(buf, f, our, CtlKind(buf.data[last + 7]), e);
    }
  }

  lemma {:induction false} ControlIs(f: Frame, b: seq<bv8>, last: nat)
    requires f.Valid() && b == Encode(f) && last == 7 * (|f.entries| - 1) && f.tail != []
    ensures last + 7 < |b| && b[last + 7] == f.tail[0]
  {
    EncodeLength(f.entries);
  }

  lemma {:induction false} IneligibleIsPlain(s: seq<Slot>, f: Frame, our: nat, e: Setting)
    requires WellPlaced(f, our) && (!e.enabled || !Eligible(f, e))
    ensures Process(s, f, our, e) == Transit.Result(s, Sent(f, our, 0, Plain))
  {
  }

  lemma {:induction false} PinnedHasPin(s: seq<Slot>, i: int, kind: Kind, e: Setting)
    requires i < |s| && (i >= 0 ==> s[i].Some?)
    ensures PickHop(s, i, kind, e).1 ==> i >= 0 && s[i].value.pin.Some?
  {
  }

  lemma {:induction false} TooEarlyToContract(s: seq<Slot>, f: Frame, our: nat, e: Setting)
    requires WellPlaced(f, our) && our < 3
    ensures ContractSlot(s, f, our, e) == -1
  {
  }
}
