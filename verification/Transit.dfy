/** One frame through one transit node: FlexNet_L2Transit.
  *
  * Configuration, routing table look-ups and port properties enter as a `Setting`
  * that may differ from frame to frame; the circuit table is the node's state.
  */
module Transit {
  import opened Base
  import opened AxFrame
  import opened Circuits

  /** What resolving a next hop toward DEST yields. */
  datatype Route = Via(next: Hop, port: int) | Adjacent(port: int) | NoRoute

  /** Everything outside the circuit table that one call consults. */
  datatype Setting = Setting(
    enabled: bool,            // FLEXNETTRANSIT and FLEXNETL2TRANSIT
    crossport: bool,          // cross-port routing in force
    arrive: int,              // port the frame arrived on
    maxDigis: nat,            // PORTMAXDIGIS, 0 = unlimited
    digipeats: bool,          // DIGIFLAG of the arrival port
    ports: set<int>,          // ports that exist
    originMapped: bool,       // ORIGIN is a FlexNet peer on the arrival port
    carriesFlexNet: bool,     // the arrival port carries FlexNet
    external: map<Call, int>, // FLEXNETEXTERNAL stations and their ports
    neighbours: map<Call, int>, // port of each FlexNet neighbour
    live: set<Call>,          // calls with an active session
    route: Route,             // next hop toward DEST
    now: int)

  datatype Action = Plain | Contracted(hop: Entry) | Extended(next: Hop)

  /** `at` is our entry's index; `toPort` 0 means the arrival port. */
  datatype Outcome = Dropped | Sent(frame: Frame, at: nat, toPort: int, act: Action)

  datatype Result = Result(slots: seq<Slot>, out: Outcome)

  predicate WellPlaced(f: Frame, our: nat) { f.Valid() && 2 <= our < |f.entries| }

  predicate IsLast(f: Frame, our: nat) { our == |f.entries| - 1 }

  function PortOf(m: map<Call, int>, c: Call): int { if c in m then m[c] else 0 }

  function OutPort(arrive: int, revPort: int, fwdOut: int, extPort: int, peerPort: int): int
  {
    if revPort != 0 then revPort
    else if fwdOut != 0 then fwdOut
    else if extPort != 0 then extPort
    else if peerPort != 0 then peerPort
    else arrive
  }

  /** flex_l2_choose_port */
  function ChoosePort(s: seq<Slot>, f: Frame, our: nat, e: Setting): (r: (seq<Slot>, int))
    requires WellPlaced(f, our)
    ensures |r.0| == |s|
  {
    var dest, origin := f.IdAt(0), f.IdAt(1);
    var next := if IsLast(f, our) then dest else f.IdAt(our + 1);
    var ext := PortOf(e.external, next);
    if !(e.crossport || ext != 0 || PortOf(e.external, dest) != 0 || PortOf(e.external, origin) != 0) then (s, 0)
    else
      var rev := FindRev(s, dest, origin, e.arrive, e.now, 0);
      var fwd := FindIn(s, origin, dest, e.arrive, false, e.now);
      var out := OutPort(e.arrive,
                         if rev >= 0 then s[rev].value.port else 0,
                         if fwd.1 >= 0 then fwd.0[fwd.1].value.OutEff() else 0,
                         ext, PortOf(e.neighbours, next));
      if out == e.arrive || !e.digipeats || out !in e.ports then (fwd.0, 0) else (fwd.0, out)
  }

  function SendPlain(s: seq<Slot>, f: Frame, our: nat, e: Setting, act: Action): (r: Result)
    requires WellPlaced(f, our)
    ensures |r.slots| == |s|
  {
    var p := ChoosePort(s, f, our, e);
    Result(p.0, Sent(f, our, p.1, act))
  }

  /** flex_l2_self_repeated: our own call, repeated, among the digipeaters before `our`. */
  predicate SelfRepeated(f: Frame, our: nat)
    requires WellPlaced(f, our)
  {
    exists i :: 2 <= i < our && f.entries[i].h && f.IdAt(i) == f.IdAt(our)
  }

  /** flex_l2_pick_hop: next hop and its port, and whether it is the pinned one. */
  function PickHop(s: seq<Slot>, i: int, kind: Kind, e: Setting): (r: (Route, bool))
    requires i < |s| && (i >= 0 ==> s[i].Some?)
  {
    if i >= 0 && s[i].value.pin.Some? &&
       !MustRepin(s[i].value.closedAt != 0, kind, s[i].value.pin.value.Id() in e.live)
    then (Via(s[i].value.pin.value, s[i].value.OutEff()), true)
    else (e.route, false)
  }

  /** The circuit after one forward frame with next hop `next` was carried. */
  function PinHop(c: Circuit, next: Hop, port: int, pinned: bool, isNew: bool): Circuit
    requires !isNew && !pinned ==> c.pin.Some?
  {
    if pinned then c
    else
      var c1 := if !isNew && c.pin.value.Id() != next.Id()
                then c.(prev := c.pin, prevOutPort := c.OutEff()) else c;
      c1.(pin := Some(next), outPort := port)
  }

  /** flex_l2_extend; None when the frame is left as it is. */
  function Extend(s: seq<Slot>, f: Frame, i: int, next: Hop, port: int, pinned: bool, kind: Kind,
                  e: Setting): (r: (seq<Slot>, Option<Frame>))
    requires f.Valid() && i < |s| && (i >= 0 ==> s[i].Some?) && (pinned ==> i >= 0 && s[i].value.pin.Some?)
    ensures |r.0| == |s|
    ensures r.1.Some? ==> r.1.value == Appended(f, next)
  {
    var found := if i >= 0 then (s, i) else FindIn(s, f.IdAt(1), f.IdAt(0), e.arrive, true, e.now);
    if found.1 < 0 then (found.0, None)
    else
      var c := found.0[found.1].value;
      var isNew := i < 0 || c.pin.None?;
      if f.Length() + 7 > MAX_FRAME then
        (if isNew then found.0[found.1 := None] else found.0, None)
      else
        (found.0[found.1 := Some(Carry(PinHop(c, next, port, pinned, isNew), kind, e.now))], Some(Appended(f, next)))
  }

  /** flex_l2_note_adjacent */
  function NoteAdjacent(s: seq<Slot>, f: Frame, i: int, port: int, kind: Kind, e: Setting): (r: seq<Slot>)
    requires f.Valid() && i < |s| && (i >= 0 ==> s[i].Some?)
    ensures |r| == |s|
  {
    var found := if i >= 0 then (s, i) else FindIn(s, f.IdAt(1), f.IdAt(0), e.arrive, true, e.now);
    if found.1 < 0 then found.0
    else found.0[found.1 := Some(Carry(found.0[found.1].value.(outPort := port), kind, e.now))]
  }

  function Cap(e: Setting): nat { if e.maxDigis == 0 || e.maxDigis > MAX_DIGIS then MAX_DIGIS else e.maxDigis }

  predicate Eligible(f: Frame, e: Setting)
    requires f.Valid()
  {
    || e.originMapped
    || f.DigiCount() >= 2
    || PortOf(e.external, f.IdAt(0)) != 0
    || PortOf(e.external, f.IdAt(1)) != 0
    || (e.crossport && e.carriesFlexNet)
  }

  /** The slot of the circuit that put `f`'s entry before `our` there, or -1. */
  function ContractSlot(s: seq<Slot>, f: Frame, our: nat, e: Setting): (r: int)
    requires WellPlaced(f, our)
    ensures r == -1 || (0 <= r < |s| && s[r].Some?)
  {
    if our < 3 then -1
    else
      var r := FindRev(s, f.IdAt(0), f.IdAt(1), e.arrive, e.now, 0);
      if r >= 0 && s[r].value.OurHop(f.entries[our - 1]) then r else -1
  }

  /** Loop guard, cross-port rule and digipeater limit. */
  predicate MayExtend(f: Frame, next: Hop, port: int, e: Setting)
    requires f.Valid()
  {
    !f.Mentions(next.Id()) && (port == e.arrive || e.crossport) && f.DigiCount() < Cap(e)
  }

  /** A next hop is known: append it if that is allowed. */
  function ForwardVia(s: seq<Slot>, f: Frame, our: nat, i: int, next: Hop, port: int, pinned: bool, kind: Kind,
                      e: Setting): (r: Result)
    requires WellPlaced(f, our)
    requires i < |s| && (i >= 0 ==> s[i].Some?) && (pinned ==> i >= 0 && s[i].value.pin.Some?)
    ensures |r.slots| == |s|
  {
    if !MayExtend(f, next, port, e) then Result(s, Sent(f, our, 0, Plain))
    else
      var x := Extend(s, f, i, next, port, pinned, kind, e);
      match x.1
      case None => Result(x.0, Sent(f, our, 0, Plain))
      case Some(g) => SendPlain(x.0, g, our, e, Extended(next))
  }

  /** The forward half of FlexNet_L2Transit: we are the last digipeater. */
  function Forward(s: seq<Slot>, f: Frame, our: nat, kind: Kind, e: Setting): (r: Result)
    requires WellPlaced(f, our)
    ensures |r.slots| == |s|
  {
    var found := FindIn(s, f.IdAt(1), f.IdAt(0), e.arrive, false, e.now);
    var i := found.1;
    if i >= 0 && SelfRepeated(f, our) then Result(found.0, Dropped)
    else
      var pick := PickHop(found.0, i, kind, e);
      match pick.0
      case NoRoute => SendPlain(found.0, f, our, e, Plain)
      case Adjacent(p) =>
        var t := if p != 0 && p != e.arrive && (e.crossport || PortOf(e.external, f.IdAt(0)) != 0)
                 then NoteAdjacent(found.0, f, i, p, kind, e) else found.0;
        SendPlain(t, f, our, e, Plain)
      case Via(next, port) =>
        ForwardVia(found.0, f, our, i, next, port, pick.1, kind, e)
  }

  /** FlexNet_L2Transit */
  function Process(s: seq<Slot>, f: Frame, our: nat, e: Setting): (r: Result)
    requires WellPlaced(f, our)
    ensures |r.slots| == |s|
  {
    if !e.enabled || !Eligible(f, e) || f.tail == [] then Result(s, Sent(f, our, 0, Plain))
    else
      var kind := CtlKind(f.tail[0]);
      var r := ContractSlot(s, f, our, e);
      if r >= 0 then
        SendPlain(s[r := Some(Carry(s[r].value, kind, e.now))], Removed(f, our - 1), our - 1, e,
          Contracted(f.entries[our - 1]))
      else if !IsLast(f, our) then SendPlain(s, f, our, e, Plain)
      else Forward(s, f, our, kind, e)
  }

  /** Stock Digipeat: set the H bit of our entry and transmit. */
  function Digipeated(f: Frame, our: nat): Frame
    requires our < |f.entries|
  {
    f.(entries := f.entries[our := f.entries[our].(h := true)])
  }
}
