/** The distributed claim over whole runs: what each node has seen before, what it
  * sees between the frame and its answer, and what has to hold there for the answer
  * to come back.
  */
module ChainRuns {
  import opened Base
  import opened AxFrame
  import opened Circuits
  import opened Transit
  import opened TransitSteps
  import opened TransitRuns
  import opened CircuitFacts
  import opened ChainSymmetry

  /** A node's part: its traffic from an empty table on, the setting in which it
      forwards the frame, its traffic until the answer, and the setting then. */
  datatype Passage = Passage(me: Call, empty: seq<Slot>, before: seq<Arrival>, e: Setting,
                             between: seq<Arrival>, back: Setting)
  {
    predicate Valid() { EmptyTable(empty) && AllValid(before) && AllValid(between) }

    function AsRelay(): Relay
      requires Valid()
    {
      Relay(me, TableAfter(empty, before), e)
    }
  }

  predicate AllPassagesValid(ps: seq<Passage>) { forall i :: 0 <= i < |ps| ==> ps[i].Valid() }

  function Relays(ps: seq<Passage>): (rs: seq<Relay>)
    requires AllPassagesValid(ps)
    ensures |rs| == |ps|
    ensures forall i :: 0 <= i < |ps| ==> rs[i] == ps[i].AsRelay()
  {
    seq(|ps|, i requires 0 <= i < |ps| => ps[i].AsRelay())
  }

  /** The tables when the answer comes, from those the frame left behind. */
  function Later(ps: seq<Passage>, tables: seq<seq<Slot>>): (l: seq<seq<Slot>>)
    requires AllPassagesValid(ps) && |tables| == |ps|
    ensures |l| == |ps|
    ensures forall i :: 0 <= i < |ps| ==> l[i] == TableAfter(tables[i], ps[i].between)
  {
    seq(|ps|, i requires 0 <= i < |ps| => TableAfter(tables[i], ps[i].between))
  }

  function Backs(ps: seq<Passage>): (es: seq<Setting>)
    ensures |es| == |ps|
    ensures forall i :: 0 <= i < |ps| ==> es[i] == ps[i].back
  {
    seq(|ps|, i requires 0 <= i < |ps| => ps[i].back)
  }


  /** The circuit in slot `k` stays live, its hop's session up, until the answer. */
  predicate StaysUp(p: Passage, t: seq<Slot>, k: nat)
    requires p.Valid() && k < |t|
  {
    forall j :: 0 <= j <= |p.between| ==>
      Thriving(TableAfter(t, p.between[..j])[k], if j < |p.between| then p.between[j].e else p.back)
  }

  /** What has to hold at a node that extends `f`: when the frame passes, no circuit
      claims it as one that returns; its circuit records a port that can be sent on;
      that circuit stays up until the answer, and the pair has none on another
      arrival port; and the answer arrives on the port the frame left on. */
  predicate WayBackOpen(p: Passage, f: Frame)
    requires p.Valid() && f.Valid() && |f.entries| >= 3
  {
    var s, user, dest := TableAfter(p.empty, p.before), f.IdAt(1), f.IdAt(0);
    var r := Process(s, f, |f.entries| - 1, p.e);
    && r.out.Sent? && user != dest && p.e.arrive != 0 && Unclaimed(s, f, p.e)
    && (forall k :: 0 <= k < |r.slots| && ForPair(r.slots[k], user, dest) ==>
          && StaysUp(p, r.slots, k)
          && (var o := r.slots[k].value.OutEff(); o == p.e.arrive || (p.e.digipeats && o in p.e.ports)))
    && (forall k :: 0 <= k < |s| && ForPair(TableAfter(r.slots, p.between)[k], user, dest) ==>
          TableAfter(r.slots, p.between)[k].value.port == p.e.arrive)
    && p.back.enabled && p.back.arrive == (if r.out.toPort == 0 then p.e.arrive else r.out.toPort)
  }

  /** All circuits of the pair have the port `port`. */
  predicate PairPort(s: seq<Slot>, user: Call, dest: Call, port: int)
  {
    port != 0 && forall k :: 0 <= k < |s| && ForPair(s[k], user, dest) ==> s[k].value.port == port
  }

  lemma {:induction false} RunKeepsUnique(s: seq<Slot>, run: seq<Arrival>)
    requires AllValid(run) && OnePerCircuit(s)
    ensures OnePerCircuit(TableAfter(s, run))
    decreases |run|
  {
    hide Process, OnePerCircuit;
    if run != [] {
      var a := run[|run| - 1];
      RunKeepsUnique(s, run[..|run| - 1]);
      VisitKeepsUnique(TableAfter(s, run[..|run| - 1]), a.f, a.our, a.e);
    }
  }

  lemma {:induction false} StaysPinned(p: Passage, t: seq<Slot>, k: nat)
    requires p.Valid() && k < |t| && StaysUp(p, t, k)
    ensures SamePins(t[k], TableAfter(t, p.between)[k]) && Thriving(TableAfter(t, p.between)[k], p.back)
  {
    hide Thriving, SamePins, Process;
    var n := |p.between|;
    assert p.between[..n] == p.between;
    assert Thriving(TableAfter(t, p.between[..n])[k], p.back);
    assert Thriving(TableAfter(t, p.between[..0])[k], if 0 < n then p.between[0].e else p.back);
    ThrivingInUse(TableAfter(t, p.between[..0])[k], if 0 < n then p.between[0].e else p.back);
    PinSurvivesRun(t, p.between, k);
  }

  lemma {:induction false} ThrivingInUse(s: Slot, e: Setting)
    requires Thriving(s, e)
    ensures s.Some?
  {
  }

  /** One extending node: it still knows the hop it appended when the answer comes. */
  lemma {:induction false} NodeKnows(p: Passage, f: Frame)
    requires p.Valid() && f.Valid() && |f.entries| >= 3 && WayBackOpen(p, f)
    requires Process(TableAfter(p.empty, p.before), f, |f.entries| - 1, p.e).out.act.Extended?
    ensures var r := Process(TableAfter(p.empty, p.before), f, |f.entries| - 1, p.e);
            && StillKnows(TableAfter(r.slots, p.between), f.IdAt(1), f.IdAt(0), r.out.act.next.Id(), p.back)
            && PairPort(TableAfter(r.slots, p.between), f.IdAt(1), f.IdAt(0), p.e.arrive)
  {
    hide Process, Thriving, Unclaimed, StaysUp, OnePerCircuit;
    var s, user, dest := TableAfter(p.empty, p.before), f.IdAt(1), f.IdAt(0);
    var our := |f.entries| - 1;
    var r := Process(s, f, our, p.e);
    ReachableTablesUnique(p.empty, p.before);
    LeavesOnRecordedPort(s, f, our, p.e);
    VisitKeepsUnique(s, f, our, p.e);
    RunKeepsUnique(r.slots, p.between);
    var later, hop := TableAfter(r.slots, p.between), r.out.act.next.Id();
    var k :| 0 <= k < |r.slots| && Pins(r.slots[k], user, dest, hop, p.e.now) &&
             r.out.toPort == LeavesOn(r.slots[k].value.OutEff(), p.e);
    assert ForPair(r.slots[k], user, dest);
    StaysPinned(p, r.slots, k);
    assert ForPair(later[k], user, dest);
    OnlyOne(later, k, user, dest, p.e.arrive);
    ThrivingIsHeld(later[k], p.back);
    assert KnownBy(later, k, user, dest, hop, p.back);
  }

  lemma {:induction false} ThrivingIsHeld(s: Slot, e: Setting)
    requires Thriving(s, e)
    ensures Held(s, e.now)
  {
  }

  lemma {:induction false} OnlyOne(s: seq<Slot>, k: nat, user: Call, dest: Call, port: int)
    requires OnePerCircuit(s) && k < |s| && ForPair(s[k], user, dest)
    requires forall i :: 0 <= i < |s| && ForPair(s[i], user, dest) ==> s[i].value.port == port
    ensures Sole(s, k, user, dest)
  {
    forall i | 0 <= i < |s| && i != k && s[i].Some? ensures s[i].value.user != user || s[i].value.dest != dest {
    }
  }

  /** The same at every node but the last, along the way the frame takes. */
  predicate AllOpen(ps: seq<Passage>, f: Frame)
    requires AllPassagesValid(ps) && f.Valid()
    decreases |ps|
  {
    |ps| >= 2 ==>
      && |f.entries| >= 3 && WayBackOpen(ps[0], f)
      && var r := Process(TableAfter(ps[0].empty, ps[0].before), f, |f.entries| - 1, ps[0].e);
         r.out.act.Extended? ==>
           StepFrame(f, r.out.act.next).Valid() && AllOpen(ps[1..], StepFrame(f, r.out.act.next))
  }

  lemma {:induction false} RelaysTail(ps: seq<Passage>)
    requires AllPassagesValid(ps) && ps != []
    ensures AllPassagesValid(ps[1..]) && Relays(ps)[1..] == Relays(ps[1..])
  {
  }

  lemma {:induction false} AllKnow(ps: seq<Passage>, f: Frame, tables: seq<seq<Slot>>, out: Frame, i: nat)
    requires AllPassagesValid(ps) && f.Valid() && i + 1 < |ps| && AllOpen(ps, f)
    requires CarryOut(Relays(ps), f) == Some((tables, out))
    ensures |tables| == |ps| && |f.entries| + i < |out.entries|
    ensures StillKnows(TableAfter(tables[i], ps[i].between), f.IdAt(1), f.IdAt(0), out.IdAt(|f.entries| + i),
            ps[i].back)
    ensures PairPort(TableAfter(tables[i], ps[i].between), f.IdAt(1), f.IdAt(0), ps[i].e.arrive)
    decreases |ps|
  {
    hide Process, StillKnows, WayBackOpen, CarryOut, TableAfter, PinnedIn, PairPort;
    var rs := Relays(ps);
    var next := CarryOutStep(rs, f, tables, out);
    var g := StepFrame(f, next);
    StepFrameEnds(f, next);
    RelaysTail(ps);
    CarryOutShape(rs[1..], g, tables[1..], out);
    if i == 0 {
      NodeKnows(ps[0], f);
      assert out.entries[|f.entries|] == Entry(next, true);
    } else {
      AllKnow(ps[1..], g, tables[1..], out, i - 1);
      assert g.entries[0] == g.entries[..2][0] == f.entries[0] && g.entries[1] == g.entries[..2][1] == f.entries[1];
      assert tables[1..][i - 1] == tables[i] && ps[1..][i - 1] == ps[i];
    }
  }

  /** The answer goes out where the frame had come in: without change of port, or on
      that port if routes cross ports, it exists and the other one digipeats. */
  predicate WhereItCame(p: Passage, toPort: int)
  {
    var a, b := p.e.arrive, p.back.arrive;
    && (a == b ==> toPort == 0)
    && (a != b && p.back.crossport && p.back.digipeats && a in p.back.ports ==> toPort == a)
  }

  lemma {:induction false} BackToPort(p: Passage, later: seq<Slot>, user: Call, dest: Call, toPort: int)
    requires PairPort(later, user, dest, p.e.arrive) && GoesBack(later, user, dest, toPort, p.back)
    ensures WhereItCame(p, toPort)
  {
  }

  /** The answer comes back. Two or more nodes, each with any history from an empty
      table, carry a frame out, all but the last extending the chain. Each of those
      then handles any traffic in which its circuit stays up, and the answer DEST
      sends along the chain it saw enters each node on the port the frame left on.
      Then, each node finding its own call as the next in the chain, the answer
      reaches the originator with exactly the reverse of the digipeaters it sent, and
      every one of those nodes sends it out on the port where it had received the
      frame. */
  lemma {:induction false} AnswerComesBack(ps: seq<Passage>, f: Frame, tables: seq<seq<Slot>>, out: Frame,
                                           tail: seq<bv8>)
    requires AllPassagesValid(ps) && |ps| >= 2 && f.Valid() && tail != []
    requires CarryOut(Relays(ps), f) == Some((tables, out)) && AllOpen(ps, f)
    ensures |tables| == |ps| && |f.entries| >= 3
    ensures var c := CarryBack(Calls(Relays(ps)), Later(ps, tables), Backs(ps), Reply(out, tail));
            && c.Some? && c.value.0 == AnswerSeen(f, tail) && |c.value.1| == |ps|
            && forall i :: 0 <= i < |ps| - 1 ==> WhereItCame(ps[i], c.value.1[i])
  {
    hide CarryOut, AllOpen, StillKnows, TableAfter, Digis, Reply, AnswerSeen, CarryBack, PairPort, GoesBack,
      WhereItCame;
    CarryOutShape(Relays(ps), f, tables, out);
    var n := |ps| - 1;
    forall i | 0 <= i <= n ensures out.IdAt(|f.entries| - 1 + i) == Calls(Relays(ps))[i] {
      CarryOutCalls(Relays(ps), f, tables, out, i);
    }
    var later, es := Later(ps, tables), Backs(ps);
    forall i | 0 <= i < n
      ensures StillKnows(later[i], f.IdAt(1), f.IdAt(0), out.IdAt(|f.entries| + i), es[i])
      ensures PairPort(later[i], f.IdAt(1), f.IdAt(0), ps[i].e.arrive)
    {
      AllKnow(ps, f, tables, out, i);
    }
    AnswerReturns(Calls(Relays(ps)), f, out, n, later, es, tail);
    var c := CarryBack(Calls(Relays(ps)), later, es, Reply(out, tail));
    forall i | 0 <= i < n ensures WhereItCame(ps[i], c.value.1[i]) {
      assert GoesBack(later[i], f.IdAt(1), f.IdAt(0), c.value.1[i], es[i]);
      BackToPort(ps[i], later[i], f.IdAt(1), f.IdAt(0), c.value.1[i]);
    }
  }
}
