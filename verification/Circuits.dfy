/** The circuit table of a transit node: which next hop it appended for which
  * (user, destination, port), so that only those hops are ever removed again.
  */
module Circuits {
  import opened Base
  import opened AxFrame

  const MAX_CIRCUITS := 128
  const LINGER := 120
  const EVICT := 900
  const IDLE := 7200

  // ----- AX.25 control field classes

  datatype Kind = Other | Sabm | Disc | Ua | Dm

  function CtlKind(ctl: bv8): Kind
  {
    if ctl & 0x01 == 0 || ctl & 0x03 == 0x01 then Other
    else
      var u := ctl & 0xEF;
      if u == 0x2F || u == 0x6F then Sabm
      else if u == 0x43 then Disc
      else if u == 0x63 then Ua
      else if u == 0x0F then Dm
      else Other
  }

  // ----- one circuit

  datatype SlotState = Live | Evictable | Expired

  function StateAt(now: int, lastUsed: int, closedAt: int): SlotState
  {
    if closedAt != 0 && now - closedAt > LINGER then Expired
    else if now - lastUsed > IDLE then Expired
    else if closedAt != 0 || now - lastUsed > EVICT then Evictable
    else Live
  }

  /** `closedAt == 0` means open; `outPort == 0` means "same as port". */
  datatype Circuit = Circuit(user: Call, dest: Call, port: int,
                             pin: Option<Hop>, prev: Option<Hop>,
                             outPort: int, prevOutPort: int,
                             closing: bool, closedAt: int, lastUsed: int)
  {
    function OutEff(): int { if outPort != 0 then outPort else port }

    predicate Pinned(c: Call) { pin.Some? && pin.value.Id() == c }

    predicate WasPinned(c: Call) { prev.Some? && prev.value.Id() == c }

    /** flex_l2_is_our_hop */
    predicate OurHop(e: Entry) { e.h && (Pinned(e.addr.Id()) || WasPinned(e.addr.Id())) }

    predicate Is(u: Call, d: Call, p: int) { user == u && dest == d && port == p }

    predicate ReturnsOn(p: int) { OutEff() == p || (prev.Some? && prevOutPort == p) }
  }

  function NewCircuit(user: Call, dest: Call, port: int, now: int): Circuit
  {
    Circuit(user, dest, port, None, None, 0, 0, false, 0, now)
  }

  predicate MustRepin(closed: bool, kind: Kind, live: bool)
  {
    !live || (closed && kind == Sabm)
  }

  /** flex_l2_note_ctl */
  function NoteCtl(c: Circuit, kind: Kind, now: int): Circuit
  {
    match kind
    case Sabm => c.(closing := false, closedAt := 0)
    case Disc => c.(closing := true)
    case Ua => if c.closing && c.closedAt == 0 then c.(closedAt := now) else c
    case Dm => if c.closedAt == 0 then c.(closedAt := now) else c
    case Other => c
  }

  function Carry(c: Circuit, kind: Kind, now: int): Circuit { NoteCtl(c.(lastUsed := now), kind, now) }

  /** The circuit after carrying frames of the given kinds at the given times. */
  function CarryAll(c: Circuit, ks: seq<(Kind, int)>): Circuit
  {
    if ks == [] then c
    else Carry(CarryAll(c, ks[..|ks| - 1]), ks[|ks| - 1].0, ks[|ks| - 1].1)
  }

  /** A teardown completed at `j` and no SABM has followed: a DM, or a UA with a
      DISC before it and no SABM in between. */
  predicate TornDown(ks: seq<(Kind, int)>, j: nat)
    requires j < |ks|
  {
    && (forall m :: j < m < |ks| ==> ks[m].0 != Sabm)
    && (ks[j].0 == Dm || (ks[j].0 == Ua && exists i :: 0 <= i < j && DiscPending(ks, i, j)))
  }

  predicate DiscPending(ks: seq<(Kind, int)>, i: nat, j: nat)
    requires i < j <= |ks|
  {
    ks[i].0 == Disc && forall m :: i < m < j ==> ks[m].0 != Sabm
  }

  /** A circuit is closed exactly when, since its last SABM, it carried a DM, or
      a UA that follows a DISC. */
  lemma {:induction false} ClosedIffTornDown(c: Circuit, ks: seq<(Kind, int)>)
    requires !c.closing && c.closedAt == 0
    requires forall k :: 0 <= k < |ks| ==> ks[k].1 != 0
    ensures CarryAll(c, ks).closing <==> exists i :: 0 <= i < |ks| && DiscPending(ks, i, |ks|)
    ensures CarryAll(c, ks).closedAt != 0 <==> exists j :: 0 <= j < |ks| && TornDown(ks, j)
  {
    if ks != [] {
      var n := |ks| - 1;
      var init := ks[..n];
      ClosedIffTornDown(c, init);
      forall i | 0 <= i < n ensures DiscPending(ks, i, |ks|) == (ks[n].0 != Sabm && DiscPending(init, i, n)) {
        assert forall m :: 0 <= m < n ==> init[m] == ks[m];
      }
      forall j | 0 <= j < n ensures TornDown(ks, j) == (ks[n].0 != Sabm && TornDown(init, j)) {
        assert forall m :: 0 <= m < n ==> init[m] == ks[m];
        assert forall i :: 0 <= i < j ==> DiscPending(ks, i, j) == DiscPending(init, i, j);
      }
      assert TornDown(ks, n) == (ks[n].0 == Dm || (ks[n].0 == Ua && CarryAll(c, init).closing)) by {
        assert forall i :: 0 <= i < n ==> DiscPending(ks, i, n) == DiscPending(init, i, n);
      }
      assert DiscPending(ks, n, |ks|) == (ks[n].0 == Disc);
    }
  }

  // ----- the table: what the two scans over it find

  type Slot = Option<Circuit>

  predicate Gone(s: Slot, now: int) { s.Some? && StateAt(now, s.value.lastUsed, s.value.closedAt) == Expired }

  /** A slot in use that has not expired. */
  predicate Held(s: Slot, now: int) { s.Some? && !Gone(s, now) }

  function Swept(s: Slot, now: int): Slot { if Gone(s, now) then None else s }

  /** The table after the scan has released the expired slots before `n`. */
  function SweepTo(s: seq<Slot>, n: nat, now: int): (t: seq<Slot>)
    requires n <= |s|
    ensures |t| == |s|
    ensures forall i :: 0 <= i < |s| ==> t[i] == if i < n then Swept(s[i], now) else s[i]
  {
    seq(|s|, i requires 0 <= i < |s| => if i < n then Swept(s[i], now) else s[i])
  }

  predicate Matches(s: Slot, user: Call, dest: Call, port: int, now: int)
  {
    Held(s, now) && s.value.Is(user, dest, port)
  }

  function FirstMatch(s: seq<Slot>, user: Call, dest: Call, port: int, now: int, from: nat): (i: nat)
    requires from <= |s|
    ensures from <= i <= |s|
    ensures i < |s| ==> Matches(s[i], user, dest, port, now)
    decreases |s| - from
  {
    if from == |s| || Matches(s[from], user, dest, port, now) then from
    else FirstMatch(s, user, dest, port, now, from + 1)
  }

  lemma {:induction false} FirstMatchIsFirst(s: seq<Slot>, user: Call, dest: Call, port: int, now: int, from: nat)
    requires from <= |s|
    ensures forall k :: from <= k < FirstMatch(s, user, dest, port, now, from) ==> !Matches(s[k], user, dest, port, now)
    decreases |s| - from
  {
    if from < |s| && !Matches(s[from], user, dest, port, now) {
      FirstMatchIsFirst(s, user, dest, port, now, from + 1);
    }
  }

  predicate ClosedVictim(s: Slot, now: int)
  {
    s.Some? && StateAt(now, s.value.lastUsed, s.value.closedAt) == Evictable && s.value.closedAt != 0
  }

  predicate SilentVictim(s: Slot, now: int)
  {
    s.Some? && StateAt(now, s.value.lastUsed, s.value.closedAt) == Evictable && s.value.closedAt == 0
  }

  /** First released slot among the first `n`, or -1. */
  function FirstFree(s: seq<Slot>, now: int, n: nat): (i: int)
    requires n <= |s|
    ensures -1 <= i < n
  {
    if n == 0 then -1
    else
      var b := FirstFree(s, now, n - 1);
      if b < 0 && Swept(s[n - 1], now).None? then n - 1 else b
  }

  /** Longest-closed circuit among the first `n` slots, or -1. */
  function OldestClosed(s: seq<Slot>, now: int, n: nat): (i: int)
    requires n <= |s|
    ensures -1 <= i < n
    ensures i >= 0 ==> ClosedVictim(s[i], now)
  {
    if n == 0 then -1
    else
      var b := OldestClosed(s, now, n - 1);
      if ClosedVictim(s[n - 1], now) && (b < 0 || s[n - 1].value.closedAt < s[b].value.closedAt) then n - 1 else b
  }

  /** Longest-silent open circuit among the first `n` slots, or -1. */
  function LongestSilent(s: seq<Slot>, now: int, n: nat): (i: int)
    requires n <= |s|
    ensures -1 <= i < n
    ensures i >= 0 ==> SilentVictim(s[i], now)
  {
    if n == 0 then -1
    else
      var b := LongestSilent(s, now, n - 1);
      if SilentVictim(s[n - 1], now) && (b < 0 || s[n - 1].value.lastUsed < s[b].value.lastUsed) then n - 1 else b
  }

  lemma {:induction false} FirstFreeIs(s: seq<Slot>, now: int, n: nat)
    requires n <= |s|
    ensures var i := FirstFree(s, now, n);
            && (i >= 0 ==> Swept(s[i], now).None?)
            && (forall k :: 0 <= k < (if i >= 0 then i else n) ==> Swept(s[k], now).Some?)
  {
    if n > 0 { FirstFreeIs(s, now, n - 1); }
  }

  lemma {:induction false} OldestClosedIs(s: seq<Slot>, now: int, n: nat)
    requires n <= |s|
    ensures var i := OldestClosed(s, now, n);
            forall k :: 0 <= k < n && ClosedVictim(s[k], now) ==> i >= 0 && s[i].value.closedAt <= s[k].value.closedAt
  {
    if n > 0 { OldestClosedIs(s, now, n - 1); }
  }

  lemma {:induction false} LongestSilentIs(s: seq<Slot>, now: int, n: nat)
    requires n <= |s|
    ensures var i := LongestSilent(s, now, n);
            forall k :: 0 <= k < n && SilentVictim(s[k], now) ==> i >= 0 && s[i].value.lastUsed <= s[k].value.lastUsed
  {
    if n > 0 { LongestSilentIs(s, now, n - 1); }
  }

  /** What looking at slot `i` adds to the scan. */
  lemma {:induction false} ScanStep(s: seq<Slot>, user: Call, dest: Call, port: int, now: int, i: nat)
    requires i < |s|
    ensures FirstMatch(s, user, dest, port, now, i) ==
            if Matches(s[i], user, dest, port, now) then i else FirstMatch(s, user, dest, port, now, i + 1)
    ensures FirstFree(s, now, i + 1) ==
            if FirstFree(s, now, i) < 0 && Swept(s[i], now).None? then i else FirstFree(s, now, i)
    ensures var b := OldestClosed(s, now, i);
            OldestClosed(s, now, i + 1) ==
            if ClosedVictim(s[i], now) && (b < 0 || s[i].value.closedAt < s[b].value.closedAt) then i else b
    ensures var b := LongestSilent(s, now, i);
            LongestSilent(s, now, i + 1) ==
            if SilentVictim(s[i], now) && (b < 0 || s[i].value.lastUsed < s[b].value.lastUsed) then i else b
  {
  }

  lemma {:induction false} ScanStart(s: seq<Slot>, now: int)
    ensures FirstFree(s, now, 0) == OldestClosed(s, now, 0) == LongestSilent(s, now, 0) == -1 && SweepTo(s, 0, now) == s
  {
  }

  lemma {:induction false} ScanEnd(s: seq<Slot>, user: Call, dest: Call, port: int, now: int)
    ensures FirstMatch(s, user, dest, port, now, |s|) == |s|
  {
  }

  /** The slot a new circuit takes, or -1 to decline it. */
  function Victim(s: seq<Slot>, now: int): (i: int)
    ensures -1 <= i < |s|
  {
    var free := FirstFree(s, now, |s|);
    if free >= 0 then free
    else
      var closed := OldestClosed(s, now, |s|);
      if closed >= 0 then closed else LongestSilent(s, now, |s|)
  }

  /** flex_l2_find: the table afterwards and the slot index, or -1. */
  function FindIn(s: seq<Slot>, user: Call, dest: Call, port: int, create: bool, now: int): (r: (seq<Slot>, int))
    ensures |r.0| == |s| && -1 <= r.1 < |s|
    ensures r.1 >= 0 ==> r.0[r.1].Some? && r.0[r.1].value.Is(user, dest, port)
  {
    var i := FirstMatch(s, user, dest, port, now, 0);
    var t := SweepTo(s, i, now);
    if i < |s| then (t, i)
    else if !create then (t, -1)
    else
      var v := Victim(s, now);
      if v < 0 then (t, -1) else (t[v := Some(NewCircuit(user, dest, port, now))], v)
  }

  /** flex_l2_find_rev: the first circuit a returning frame can belong to. */
  predicate Returns(s: Slot, user: Call, dest: Call, port: int, now: int)
  {
    Held(s, now) && s.value.user == user && s.value.dest == dest && s.value.ReturnsOn(port)
  }

  function FindRev(s: seq<Slot>, user: Call, dest: Call, port: int, now: int, from: nat): (i: int)
    requires from <= |s|
    ensures i == -1 || from <= i < |s|
    ensures i >= 0 ==> Returns(s[i], user, dest, port, now)
    decreases |s| - from
  {
    if from == |s| then -1
    else if Returns(s[from], user, dest, port, now) then from
    else FindRev(s, user, dest, port, now, from + 1)
  }

  lemma {:induction false} FindRevIsFirst(s: seq<Slot>, user: Call, dest: Call, port: int, now: int, from: nat)
    requires from <= |s|
    ensures var i := FindRev(s, user, dest, port, now, from);
            forall k :: from <= k < (if i == -1 then |s| else i) ==> !Returns(s[k], user, dest, port, now)
    decreases |s| - from
  {
    if from < |s| && !Returns(s[from], user, dest, port, now) {
      FindRevIsFirst(s, user, dest, port, now, from + 1);
    }
  }

  // ----- what the table keeps

  /** At most one circuit in use per (user, destination, port). */
  predicate OnePerCircuit(s: seq<Slot>)
  {
    forall i, j :: 0 <= i < j < |s| && s[i].Some? && s[j].Some? ==>
      !(s[i].value.Is(s[j].value.user, s[j].value.dest, s[j].value.port))
  }

  lemma {:induction false} FindKeepsUnique(s: seq<Slot>, user: Call, dest: Call, port: int, create: bool, now: int)
    requires OnePerCircuit(s)
    ensures OnePerCircuit(FindIn(s, user, dest, port, create, now).0)
  {
    var i := FirstMatch(s, user, dest, port, now, 0);
    FirstMatchIsFirst(s, user, dest, port, now, 0);
    var t := SweepTo(s, i, now);
    assert OnePerCircuit(t);
    if i == |s| && create && Victim(s, now) >= 0 {
      var v := Victim(s, now);
      forall k | 0 <= k < |t| && t[k].Some? ensures !t[k].value.Is(user, dest, port) {
        assert Swept(s[k], now) == t[k];
      }
    }
  }

  /** Allocation keeps every circuit that is not the one asked for and not the
      victim; a live circuit is never the victim; the victim is a released slot
      if there is one, else the longest-closed circuit, else the open circuit
      silent longest; and allocation fails exactly when every slot is live. */
  lemma {:induction false} AllocationPolicy(s: seq<Slot>, user: Call, dest: Call, port: int, now: int)
    requires forall k :: 0 <= k < |s| ==> !Matches(s[k], user, dest, port, now)
    ensures var r := FindIn(s, user, dest, port, true, now);
            && (r.1 == -1 <==> forall k :: 0 <= k < |s| ==>
                 s[k].Some? && StateAt(now, s[k].value.lastUsed, s[k].value.closedAt) == Live)
            && (forall k :: 0 <= k < |s| && k != r.1 ==> r.0[k] == Swept(s[k], now))
            && (r.1 >= 0 ==> r.0[r.1] == Some(NewCircuit(user, dest, port, now)))
            && (r.1 >= 0 && Held(s[r.1], now) ==>
                  && (forall k :: 0 <= k < |s| ==> Held(s[k], now))
                  && StateAt(now, s[r.1].value.lastUsed, s[r.1].value.closedAt) == Evictable
                  && (s[r.1].value.closedAt != 0 ==>
                        forall k :: 0 <= k < |s| && ClosedVictim(s[k], now) ==>
                          s[r.1].value.closedAt <= s[k].value.closedAt)
                  && (s[r.1].value.closedAt == 0 ==>
                        && (forall k :: 0 <= k < |s| ==> !ClosedVictim(s[k], now))
                        && (forall k :: 0 <= k < |s| && SilentVictim(s[k], now) ==>
                             s[r.1].value.lastUsed <= s[k].value.lastUsed)))
  {
    var r := FindIn(s, user, dest, port, true, now);
    FirstFreeIs(s, now, |s|);
    OldestClosedIs(s, now, |s|);
    LongestSilentIs(s, now, |s|);
    if r.1 == -1 {
      forall k | 0 <= k < |s| ensures s[k].Some? && StateAt(now, s[k].value.lastUsed, s[k].value.closedAt) == Live {
        assert Swept(s[k], now).Some?;
        assert !ClosedVictim(s[k], now) && !SilentVictim(s[k], now);
      }
    } else {
      assert !(s[r.1].Some? && StateAt(now, s[r.1].value.lastUsed, s[r.1].value.closedAt) == Live);
    }
  }

  /** An existing circuit is found, and finding it changes no slot in use. */
  lemma {:induction false} FindExisting(s: seq<Slot>, user: Call, dest: Call, port: int, create: bool, now: int, i: nat)
    requires OnePerCircuit(s) && i < |s| && Matches(s[i], user, dest, port, now)
    ensures FindIn(s, user, dest, port, create, now).1 == i
    ensures FindIn(s, user, dest, port, create, now).0 == SweepTo(s, i, now)
  {
    var k := FirstMatch(s, user, dest, port, now, 0);
    FirstMatchIsFirst(s, user, dest, port, now, 0);
    assert k <= i;
  }

  // ----- the table itself

  class CircuitTable {
    const slots: array<Slot>

    ghost predicate Valid()
      reads this
    {
      slots.Length == MAX_CIRCUITS
    }

    constructor ()
      ensures Valid() && fresh(slots)
      ensures forall i :: 0 <= i < MAX_CIRCUITS ==> slots[i].None?
    {
      slots := new Slot[MAX_CIRCUITS](i => None);
    }

    /** The scan of flex_l2_find: the circuit's slot, or the candidates for a new one. */
    method Scan(user: Call, dest: Call, port: int, now: int) returns (r: nat, spare: int, closed: int, oldest: int)
      requires Valid()
      modifies slots
      ensures r == FirstMatch(old(slots[..]), user, dest, port, now, 0)
      ensures slots[..] == SweepTo(old(slots[..]), r, now)
      ensures r == slots.Length ==> spare == FirstFree(old(slots[..]), now, r)
      ensures r == slots.Length ==> closed == OldestClosed(old(slots[..]), now, r)
      ensures r == slots.Length ==> oldest == LongestSilent(old(slots[..]), now, r)
    {
      hide StateAt, FirstMatch, FirstFree, OldestClosed, LongestSilent, SweepTo;
      ghost var s := slots[..];
      ScanStart(s, now);
      ScanEnd(s, user, dest, port, now);
      spare, closed, oldest := -1, -1, -1;
      var i := 0;
      while i < slots.Length
        invariant 0 <= i <= slots.Length == |s|
        invariant slots[..] == SweepTo(s, i, now)
        invariant FirstMatch(s, user, dest, port, now, i) == FirstMatch(s, user, dest, port, now, 0)
        invariant spare == FirstFree(s, now, i)
        invariant closed == OldestClosed(s, now, i)
        invariant oldest == LongestSilent(s, now, i)
      {
        var e := slots[i];
        assert e == SweepTo(s, i, now)[i] == s[i];
        ScanStep(s, user, dest, port, now, i);
        var st := if e.Some? then StateAt(now, e.value.lastUsed, e.value.closedAt) else Expired;
        if st == Expired {
          slots[i] := None;
          if spare < 0 {
            spare := i;
          }
        } else if e.value.Is(user, dest, port) {
          return i, spare, closed, oldest;
        } else if st == Evictable {
          if e.value.closedAt != 0 {
            assert closed >= 0 ==> slots[closed] == SweepTo(s, i, now)[closed];
            if closed < 0 || e.value.closedAt < slots[closed].value.closedAt {
              closed := i;
            }
          } else {
            assert oldest >= 0 ==> slots[oldest] == SweepTo(s, i, now)[oldest];
            if oldest < 0 || e.value.lastUsed < slots[oldest].value.lastUsed {
              oldest := i;
            }
          }
        }
        i := i + 1;
        assert slots[..] == SweepTo(s, i, now);
      }
      r := slots.Length;
    }

    method Find(user: Call, dest: Call, port: int, create: bool, now: int) returns (r: int)
      requires Valid()
      modifies slots
      ensures (slots[..], r) == FindIn(old(slots[..]), user, dest, port, create, now)
    {
      var i, spare, closed, oldest := Scan(user, dest, port, now);
      if i < slots.Length {
        return i;
      }
      if !create {
        return -1;
      }
      if spare < 0 {
        spare := if closed >= 0 then closed else oldest;
        if spare < 0 {
          return -1;
        }
      }
      slots[spare] := Some(NewCircuit(user, dest, port, now));
      return spare;
    }

    method FindReturning(user: Call, dest: Call, port: int, now: int) returns (r: int)
      requires Valid()
      ensures r == FindRev(slots[..], user, dest, port, now, 0)
    {
      ghost var s := slots[..];
      var i := 0;
      while i < slots.Length
        invariant 0 <= i <= slots.Length
        invariant FindRev(s, user, dest, port, now, i) == FindRev(s, user, dest, port, now, 0)
      {
        var e := slots[i];
        if e.Some? && StateAt(now, e.value.lastUsed, e.value.closedAt) != Expired {
          if e.value.user == user && e.value.dest == dest &&
            (e.value.OutEff() == port || (e.value.prev.Some? && e.value.prevOutPort == port)) {
            return i;
          }
        }
        i := i + 1;
      }
      return -1;
    }
  }
}
