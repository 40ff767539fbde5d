/** The distributed claim: however many nodes rewrite the chain on the way out,
  * the originator sees exactly the reverse of the chain it sent.
  */
module ChainSymmetry {
  import opened Base
  import opened AxFrame
  import opened Circuits
  import opened Transit
  import opened TransitSteps
  import opened TransitRuns
  import opened CircuitFacts

  /** A node on the path: its call, its circuit table and its surroundings. */
  datatype Relay = Relay(me: Call, slots: seq<Slot>, e: Setting)

  function Calls(rs: seq<Relay>): (r: seq<Call>)
    ensures |r| == |rs|
    ensures forall i :: 0 <= i < |rs| ==> r[i] == rs[i].me
  {
    seq(|rs|, i requires 0 <= i < |rs| => rs[i].me)
  }

  /** Carry `f` out through `rs`, each node being named as the last digipeater when
      the frame reaches it: every node but the last extends the chain, the last one
      digipeats it plainly. Yields the tables afterwards and the frame DEST gets. */
  function CarryOut(rs: seq<Relay>, f: Frame): (c: Option<(seq<seq<Slot>>, Frame)>)
    requires f.Valid()
    ensures c.Some? ==> c.value.1.Valid() && |c.value.0| == |rs| && |f.entries| >= 3
    decreases |rs|
  {
    if rs == [] || |f.entries| < 3 || f.IdAt(|f.entries| - 1) != rs[0].me then None
    else
      var our := |f.entries| - 1;
      var r := Process(rs[0].slots, f, our, rs[0].e);
      if r.out.Dropped? then None
      else if |rs| == 1 then
        (if r.out.act.Plain? then Some(([r.slots], Digipeated(f, our))) else None)
      else if !r.out.act.Extended? then None
      else
        ExtensionOutcome(rs[0].slots, f, our, rs[0].e);
        match CarryOut(rs[1..], Digipeated(r.out.frame, our))
        case None => None
        case Some(rest) => Some(([r.slots] + rest.0, rest.1))
  }

  function FirstPending(es: seq<Entry>, i: nat): (k: nat)
    requires i <= |es|
    ensures i <= k <= |es|
    ensures forall m :: i <= m < k ==> es[m].h
    ensures k < |es| ==> !es[k].h
    decreases |es| - i
  {
    if i == |es| || !es[i].h then i else FirstPending(es, i + 1)
  }

  /** Carry `f` back through the nodes, last one first; each handles it at the
      first entry that is not repeated yet, which has to name it. Yields the frame the
      originator gets and the port each node sent it to, 0 for the one it came in on. */
  function CarryBack(calls: seq<Call>, tables: seq<seq<Slot>>, es: seq<Setting>, f: Frame):
    (c: Option<(Frame, seq<int>)>)
    requires |calls| == |tables| == |es| && f.Valid()
    ensures c.Some? ==> |c.value.1| == |tables|
    decreases |tables|
  {
    if tables == [] then Some((f, []))
    else
      var n := |tables| - 1;
      var our := FirstPending(f.entries, 2);
      if our >= |f.entries| || f.IdAt(our) != calls[n] then None
      else
        var o := Process(tables[n], f, our, es[n]).out;
        if o.Dropped? then None
        else
          VisitLowers(tables[n], f, our, es[n]);
          match CarryBack(calls[..n], tables[..n], es[..n], Digipeated(o.frame, o.at))
          case None => None
          case Some(rest) => Some((rest.0, rest.1 + [o.toPort]))
  }

  /** A node sends the answer toward the port of a circuit of the pair. */
  predicate GoesBack(later: seq<Slot>, user: Call, dest: Call, toPort: int, e: Setting)
  {
    exists k :: 0 <= k < |later| && ForPair(later[k], user, dest) &&
      SentToward(toPort, later[k].value.port, MayCross(user, dest, e), e)
  }

  predicate ForPair(s: Slot, user: Call, dest: Call) { s.Some? && s.value.user == user && s.value.dest == dest }

  /** The frame the nodes bring back is `g`, and each of the first `n` sent it back. */
  predicate Brought(c: Option<(Frame, seq<int>)>, g: Frame, n: nat, later: seq<seq<Slot>>, es: seq<Setting>, user: Call,
                    dest: Call)
    requires n <= |later| && n <= |es|
  {
    && c.Some? && c.value.0 == g && |c.value.1| >= n
    && forall i :: 0 <= i < n ==> GoesBack(later[i], user, dest, c.value.1[i], es[i])
  }

  function Cleared(es: seq<Entry>): (r: seq<Entry>)
    ensures |r| == |es|
    ensures forall i :: 0 <= i < |es| ==> r[i] == Entry(es[i].addr, false)
  {
    seq(|es|, i requires 0 <= i < |es| => Entry(es[i].addr, false))
  }

  function Digis(f: Frame): seq<Entry>
    requires f.Valid()
  {
    f.entries[2..]
  }

  /** The answer DEST sends: stations swapped, the digipeaters it saw reversed and
      unrepeated, any control field and contents. */
  function Reply(f: Frame, tail: seq<bv8>): (r: Frame)
    requires f.Valid()
    ensures r.Valid()
  {
    ReverseKeepsAddrs(Cleared(Digis(f)));
    Frame([f.entries[1], f.entries[0]] + Reverse(Cleared(Digis(f))), tail)
  }

  lemma {:induction false} ReverseKeepsAddrs(es: seq<Entry>)
    requires AddrsValid(es)
    ensures AddrsValid(Reverse(es))
  {
    forall k | 0 <= k < |es| ensures Reverse(es)[k].addr.Valid() {
      ReverseAt(es, k);
    }
  }

  /** `later` still knows, for returning frames seen in setting `e`, the hop that
      `pinned` pinned for (user, dest): it is the only circuit for that pair, it has
      not expired, and the frame arrives on a port it returns on. */
  predicate StillKnows(later: seq<Slot>, user: Call, dest: Call, hop: Call, e: Setting)
  {
    e.enabled && exists i :: 0 <= i < |later| && KnownBy(later, i, user, dest, hop, e)
  }

  predicate KnownBy(later: seq<Slot>, i: nat, user: Call, dest: Call, hop: Call, e: Setting)
  {
    && Sole(later, i, user, dest) && Held(later[i], e.now)
    && later[i].value.ReturnsOn(e.arrive) && SlotHas(later[i], user, dest, hop)
  }

  // ----- the way out

  predicate PinnedIn(s: seq<Slot>, user: Call, dest: Call, hop: Call, now: int)
  {
    exists k :: 0 <= k < |s| && Pins(s[k], user, dest, hop, now)
  }

  /** The frame an extending node sends on. */
  function StepFrame(f: Frame, next: Addr): Frame
    requires f.Valid()
  {
    var our := |f.entries| - 1;
    f.(entries := f.entries[..our] + [Entry(f.entries[our].addr, true), Entry(next, false)])
  }

  /** The first of several nodes extends the chain and pins what it appended. */
  lemma {:induction false} CarryOutStep(rs: seq<Relay>, f: Frame, tables: seq<seq<Slot>>, out: Frame)
    returns (next: Hop)
    requires f.Valid() && |rs| > 1 && CarryOut(rs, f) == Some((tables, out))
    ensures |f.entries| >= 3 && |tables| == |rs|
    ensures StepFrame(f, next).Valid()
    ensures CarryOut(rs[1..], StepFrame(f, next)) == Some((tables[1..], out))
    ensures PinnedIn(tables[0], f.IdAt(1), f.IdAt(0), next.Id(), rs[0].e.now)
    ensures var r := Process(rs[0].slots, f, |f.entries| - 1, rs[0].e);
            r.out.Sent? && r.out.act == Extended(next) && tables[0] == r.slots
  {
    hide Process;
    var our := |f.entries| - 1;
    var r := Process(rs[0].slots, f, our, rs[0].e);
    ExtensionOutcome(rs[0].slots, f, our, rs[0].e);
    ExtensionPins(rs[0].slots, f, our, rs[0].e);
    next := r.out.act.next;
    var g := Digipeated(r.out.frame, our);
    assert g.entries == StepFrame(f, next).entries;
  }

  lemma {:induction false} CarryOutShape(rs: seq<Relay>, f: Frame, tables: seq<seq<Slot>>, out: Frame)
    requires f.Valid() && CarryOut(rs, f) == Some((tables, out))
    ensures |tables| == |rs| >= 1 && |f.entries| >= 3
    ensures out.Valid() && |out.entries| == |f.entries| + |rs| - 1
    ensures var last := |f.entries| - 1;
            out.entries[..last] == f.entries[..last] && out.entries[last] == Entry(f.entries[last].addr, true)
    decreases |rs|
  {
    hide Process;
    if |rs| > 1 {
      var next := CarryOutStep(rs, f, tables, out);
      CarryOutShape(rs[1..], StepFrame(f, next), tables[1..], out);
      StepFramePrefix(f, next, out);
    } else {
      assert out == Digipeated(f, |f.entries| - 1);
    }
  }

  /** The chain DEST sees names the nodes in order. */
  lemma {:induction false} CarryOutCalls(rs: seq<Relay>, f: Frame, tables: seq<seq<Slot>>, out: Frame, i: nat)
    requires f.Valid() && CarryOut(rs, f) == Some((tables, out)) && i < |rs|
    ensures |f.entries| >= 3 && |f.entries| - 1 + i < |out.entries|
    ensures out.IdAt(|f.entries| - 1 + i) == Calls(rs)[i]
    decreases |rs|
  {
    hide Process;
    CarryOutShape(rs, f, tables, out);
    if i > 0 {
      var next := CarryOutStep(rs, f, tables, out);
      CarryOutCalls(rs[1..], StepFrame(f, next), tables[1..], out, i - 1);
    }
  }

  lemma {:induction false} StepFramePrefix(f: Frame, next: Addr, out: Frame)
    requires f.Valid() && |f.entries| >= 3
    requires |out.entries| > |f.entries| && out.entries[..|f.entries|] == StepFrame(f, next).entries[..|f.entries|]
    ensures var last := |f.entries| - 1;
            out.entries[..last] == f.entries[..last] && out.entries[last] == Entry(f.entries[last].addr, true)
  {
    var last := |f.entries| - 1;
    assert out.entries[..last] == out.entries[..last + 1][..last];
    assert out.entries[last] == out.entries[..last + 1][last];
  }

  /** Every node but the last has pinned the node after it. */
  lemma {:induction false} CarryOutPins(rs: seq<Relay>, f: Frame, tables: seq<seq<Slot>>, out: Frame, i: nat)
    requires f.Valid() && CarryOut(rs, f) == Some((tables, out)) && i + 1 < |rs|
    ensures |tables| == |rs| && |f.entries| + i < |out.entries|
    ensures PinnedIn(tables[i], f.IdAt(1), f.IdAt(0), out.IdAt(|f.entries| + i), rs[i].e.now)
    decreases |rs|
  {
    hide Process;
    var next := CarryOutStep(rs, f, tables, out);
    var g := StepFrame(f, next);
    CarryOutShape(rs[1..], g, tables[1..], out);
    if i == 0 {
      assert out.entries[|f.entries|] == Entry(next, true);
    } else {
      CarryOutPins(rs[1..], g, tables[1..], out, i - 1);
      StepFrameEnds(f, next);
      PinsShift(rs, tables, i, f, g, out);
    }
  }

  lemma {:induction false} StepFrameEnds(f: Frame, next: Addr)
    requires f.Valid() && |f.entries| >= 3
    ensures StepFrame(f, next).entries[..2] == f.entries[..2] && |StepFrame(f, next).entries| == |f.entries| + 1
  {
  }

  lemma {:induction false} PinsShift(rs: seq<Relay>, tables: seq<seq<Slot>>, i: nat, f: Frame, g: Frame, out: Frame)
    requires 0 < i < |tables| && |rs| == |tables|
    requires |f.entries| >= 3 && |g.entries| == |f.entries| + 1 && g.entries[..2] == f.entries[..2]
    requires |f.entries| + i < |out.entries|
    requires PinnedIn(tables[1..][i - 1], g.IdAt(1), g.IdAt(0), out.IdAt(|g.entries| + (i - 1)), rs[1..][i - 1].e.now)
    ensures PinnedIn(tables[i], f.IdAt(1), f.IdAt(0), out.IdAt(|f.entries| + i), rs[i].e.now)
  {
    assert g.entries[0] == g.entries[..2][0] == f.entries[0];
    assert g.entries[1] == g.entries[..2][1] == f.entries[1];
  }

  // ----- the way back

  /** The reply in flight after node `b` has handled it: our entry is the only
      repeated one and stands first. */
  function InFlight(u: Entry, d: Entry, b: Addr, rest: seq<Entry>, tail: seq<bv8>): Frame
  {
    Frame([u, d] + [Entry(b, true)] + rest, tail)
  }

  lemma {:induction false} BackStep(later: seq<Slot>, e: Setting, u: Entry, d: Entry, a: Addr, b: Addr,
                                    rest: seq<Entry>, tail: seq<bv8>)
    requires InFlight(u, d, a, [Entry(b, false)] + rest, tail).Valid() && tail != []
    requires StillKnows(later, u.addr.Id(), d.addr.Id(), a.Id(), e)
    ensures var f := InFlight(u, d, a, [Entry(b, false)] + rest, tail);
            && FirstPending(f.entries, 2) == 3
            && var o := Process(later, f, 3, e).out;
               && o.Sent? && o.at < |o.frame.entries| && Digipeated(o.frame, o.at) == InFlight(u, d, b, rest, tail)
               && GoesBack(later, u.addr.Id(), d.addr.Id(), o.toPort, e)
  {
    var f := InFlight(u, d, a, [Entry(b, false)] + rest, tail);
    assert f.entries[2] == Entry(a, true) && f.entries[3] == Entry(b, false);
    assert f.IdAt(0) == u.addr.Id() && f.IdAt(1) == d.addr.Id();
    var i :| 0 <= i < |later| && KnownBy(later, i, u.addr.Id(), d.addr.Id(), a.Id(), e);
    assert later[i].value.OurHop(f.entries[2]);
    ReturningIsContracted(later, i, f, 3, e);
    ContractedGoesBack(later, f, 3, e);
    var o := Process(later, f, 3, e).out;
    var k: nat :| AnswersOn(later, k, f, e) &&
      SentToward(o.toPort, later[k].value.port, MayCross(f.IdAt(0), f.IdAt(1), e), e);
    assert ForPair(later[k], u.addr.Id(), d.addr.Id());
    assert o.frame.entries == [u, d] + [Entry(b, false)] + rest;
    assert Digipeated(o.frame, 2).entries == [u, d] + [Entry(b, true)] + rest;
  }

  /** Each node knows the hop behind it: the next name, and `a` behind the last. */
  predicate KnownAlong(tables: seq<seq<Slot>>, es: seq<Setting>, names: seq<Addr>, a: Addr, user: Call, dest: Call)
    requires |tables| == |es| == |names|
  {
    forall i :: 0 <= i < |names| ==>
      StillKnows(tables[i], user, dest, (if i == |names| - 1 then a else names[i + 1]).Id(), es[i])
  }

  /** Back through nodes that each know the hop behind them. `names` are their
      calls, first node first; `a` is the node that handled the frame last. */
  lemma {:induction false} BackThroughChain(calls: seq<Call>, tables: seq<seq<Slot>>, es: seq<Setting>,
                                            names: seq<Addr>, a: Addr, u: Entry, d: Entry, rest: seq<Entry>,
                                            tail: seq<bv8>)
    requires |calls| == |tables| == |es| == |names| && tail != []
    requires forall i :: 0 <= i < |names| ==> calls[i] == names[i].Id()
    requires InFlight(u, d, a, Reverse(Cleared(Plainly(names))) + rest, tail).Valid()
    requires KnownAlong(tables, es, names, a, u.addr.Id(), d.addr.Id())
    ensures Brought(CarryBack(calls, tables, es, InFlight(u, d, a, Reverse(Cleared(Plainly(names))) + rest, tail)),
              InFlight(u, d, if names == [] then a else names[0], rest, tail), |names|, tables, es, u.addr.Id(),
              d.addr.Id())
    decreases |names|
  {
    hide CarryBack, Reverse, Cleared, Plainly, StillKnows, Process, GoesBack, Brought, SameBack;
    if names == [] {
      NoNodes(calls, tables, es, a, u, d, rest, tail);
    } else {
      var n := |names| - 1;
      var b, front := names[n], names[..n];
      PlainlySnoc(front, b);
      assert names == front + [b];
      ReverseSnoc(Cleared(Plainly(front)), Entry(b, false));
      var inner := Reverse(Cleared(Plainly(front))) + rest;
      assert Reverse(Cleared(Plainly(names))) + rest == [Entry(b, false)] + inner;
      BackStep(tables[n], es[n], u, d, a, b, inner, tail);
      var f := InFlight(u, d, a, [Entry(b, false)] + inner, tail);
      assert f.entries[3] == Entry(b, false) && f.IdAt(3) == calls[n];
      var g := InFlight(u, d, b, inner, tail);
      CarryBackOne(calls, tables, es, f, 3, g);
      BackThroughChain(calls[..n], tables[..n], es[..n], front, b, u, d, rest, tail);
      BroughtOneMore(CarryBack(calls, tables, es, f), CarryBack(calls[..n], tables[..n], es[..n], g),
        InFlight(u, d, if front == [] then b else front[0], rest, tail), tables, es, u.addr.Id(), d.addr.Id());
    }
  }

  lemma {:induction false} NoNodes(calls: seq<Call>, tables: seq<seq<Slot>>, es: seq<Setting>, a: Addr, u: Entry,
                                   d: Entry, rest: seq<Entry>, tail: seq<bv8>)
    requires calls == [] && tables == [] && es == []
    requires InFlight(u, d, a, Reverse(Cleared(Plainly([]))) + rest, tail).Valid()
    ensures Brought(CarryBack(calls, tables, es, InFlight(u, d, a, Reverse(Cleared(Plainly([]))) + rest, tail)),
              InFlight(u, d, a, rest, tail), 0, tables, es, u.addr.Id(), d.addr.Id())
  {
    assert Reverse(Cleared(Plainly([]))) + rest == rest;
  }

  lemma {:induction false} PlainlySnoc(front: seq<Addr>, b: Addr)
    ensures Cleared(Plainly(front + [b])) == Cleared(Plainly(front)) + [Entry(b, false)]
  {
  }

  function Plainly(names: seq<Addr>): (r: seq<Entry>)
    ensures |r| == |names|
    ensures forall i :: 0 <= i < |names| ==> r[i] == Entry(names[i], false)
  {
    seq(|names|, i requires 0 <= i < |names| => Entry(names[i], false))
  }

  // ----- both ways

  /** Node `i`, when the reply comes through, has kept what it pinned on the way
      out for (user, dest): its slots for that pair have the same hops. */
  predicate Keeps(pinned: seq<Slot>, later: seq<Slot>, user: Call, dest: Call)
  {
    forall k :: 0 <= k < |pinned| && pinned[k].Some? && pinned[k].value.user == user && pinned[k].value.dest == dest ==>
      && k < |later| && later[k].Some? && later[k].value.user == user && later[k].value.dest == dest
      && later[k].value.pin == pinned[k].value.pin && later[k].value.outPort == pinned[k].value.outPort
      && later[k].value.port == pinned[k].value.port
  }

  /** (user, dest) has a single circuit in the table, it is still held, and the
      reply arrives on the port its forward frames leave on. */
  predicate Answerable(later: seq<Slot>, user: Call, dest: Call, e: Setting)
  {
    && e.enabled
    && (forall i, k :: 0 <= i < k < |later| && later[i].Some? && later[k].Some? ==>
          !(later[i].value.user == later[k].value.user == user && later[i].value.dest == later[k].value.dest == dest))
    && (forall i :: 0 <= i < |later| && later[i].Some? && later[i].value.user == user && later[i].value.dest == dest ==>
          Held(later[i], e.now) && later[i].value.OutEff() == e.arrive)
  }

  lemma {:induction false} PinIsStillKnown(pinned: seq<Slot>, later: seq<Slot>, user: Call, dest: Call, hop: Call,
                                           now: int, e: Setting)
    requires PinnedIn(pinned, user, dest, hop, now)
    requires Keeps(pinned, later, user, dest) && Answerable(later, user, dest, e)
    ensures StillKnows(later, user, dest, hop, e)
  {
    var k :| 0 <= k < |pinned| && Pins(pinned[k], user, dest, hop, now);
    assert Sole(later, k, user, dest);
    assert KnownBy(later, k, user, dest, hop, e);
  }

  function Addrs(es: seq<Entry>): (r: seq<Addr>)
    ensures |r| == |es|
    ensures forall i :: 0 <= i < |es| ==> r[i] == es[i].addr
  {
    seq(|es|, i requires 0 <= i < |es| => es[i].addr)
  }

  lemma {:induction false} ReverseSplit(a: seq<Entry>, b: seq<Entry>)
    ensures Reverse(a + b) == Reverse(b) + Reverse(a)
    decreases |b|
  {
    if b == [] {
      assert a + b == a;
    } else {
      var n := |b| - 1;
      assert b == b[..n] + [b[n]];
      assert a + b == (a + b[..n]) + [b[n]];
      ReverseSnoc(a + b[..n], b[n]);
      ReverseSnoc(b[..n], b[n]);
      ReverseSplit(a, b[..n]);
    }
  }

  /** The last node sees the reply first: it is the first digipeater, so there is
      nothing before it to remove. */
  lemma {:induction false} LastNodeDigipeats(s: seq<Slot>, e: Setting, u: Entry, d: Entry, a: Addr, rest: seq<Entry>,
                                             tail: seq<bv8>)
    requires rest != []
    requires Frame([u, d] + [Entry(a, false)] + rest, tail).Valid()
    ensures var f := Frame([u, d] + [Entry(a, false)] + rest, tail);
            && FirstPending(f.entries, 2) == 2
            && var o := Process(s, f, 2, e).out;
               o.Sent? && o.at < |o.frame.entries| && Digipeated(o.frame, o.at) == InFlight(u, d, a, rest, tail)
  {
    var f := Frame([u, d] + [Entry(a, false)] + rest, tail);
    assert f.entries[2] == Entry(a, false);
    assert Digipeated(f, 2).entries == [u, d] + [Entry(a, true)] + rest;
  }

  /** Chain symmetry. Two or more nodes carry a frame out, all but the last
      extending the chain; DEST answers along the chain it saw, reversed. If in the
      meantime every extending node kept its circuit for the pair, that circuit is
      the only one for the pair, has not expired, and the answer comes in on the
      port the forward frames left on, then the answer reaches the originator with
      exactly the reverse of the digipeaters it sent, the first node's entry being
      the one marked repeated, and every extending node sends it back toward the port
      its circuit's frames came in on. */
  lemma {:induction false} ChainSymmetric(rs: seq<Relay>, f: Frame, tables: seq<seq<Slot>>, out: Frame,
                       later: seq<seq<Slot>>, es: seq<Setting>, tail: seq<bv8>)
    requires f.Valid() && |rs| >= 2 && CarryOut(rs, f) == Some((tables, out)) && tail != []
    requires |later| == |es| == |rs|
    requires AllKept(|rs| - 1, f, tables, later, es)
    ensures |f.entries| >= 3
    ensures Brought(CarryBack(Calls(rs), later, es, Reply(out, tail)), AnswerSeen(f, tail), |rs| - 1, later, es,
              f.IdAt(1), f.IdAt(0))
  {
    hide *;
    CarryOutShape(rs, f, tables, out);
    forall i | 0 <= i <= |rs| - 1 ensures out.IdAt(|f.entries| - 1 + i) == Calls(rs)[i] {
      CarryOutCalls(rs, f, tables, out, i);
    }
    StillKnown(rs, f, tables, out, later, es);
    AnswerReturns(Calls(rs), f, out, |rs| - 1, later, es, tail);
  }

  /** Every extending node has kept its circuit for the pair, and the answer finds it. */
  predicate AllKept(n: nat, f: Frame, tables: seq<seq<Slot>>, later: seq<seq<Slot>>, es: seq<Setting>)
    requires f.Valid() && n <= |tables| && n <= |later| && n <= |es|
  {
    forall i :: 0 <= i < n ==>
      Keeps(tables[i], later[i], f.IdAt(1), f.IdAt(0)) && Answerable(later[i], f.IdAt(1), f.IdAt(0), es[i])
  }

  lemma {:induction false} StillKnown(rs: seq<Relay>, f: Frame, tables: seq<seq<Slot>>, out: Frame,
                                      later: seq<seq<Slot>>, es: seq<Setting>)
    requires f.Valid() && |rs| >= 2 && CarryOut(rs, f) == Some((tables, out))
    requires |tables| == |later| == |es| == |rs| && AllKept(|rs| - 1, f, tables, later, es)
    requires out.Valid() && |out.entries| == |f.entries| + |rs| - 1
    ensures KnowsAppended(f, out, |rs| - 1, later, es)
  {
    hide CarryOut, StillKnows, Keeps, Answerable, PinnedIn;
    forall i | 0 <= i < |rs| - 1
      ensures StillKnows(later[i], f.IdAt(1), f.IdAt(0), out.IdAt(|f.entries| + i), es[i])
    {
      CarryOutPins(rs, f, tables, out, i);
      PinIsStillKnown(tables[i], later[i], f.IdAt(1), f.IdAt(0), out.IdAt(|f.entries| + i), rs[i].e.now, es[i]);
    }
  }

  /** What the originator gets: the reverse of what it sent. */
  function AnswerSeen(f: Frame, tail: seq<bv8>): Frame
    requires f.Valid() && |f.entries| >= 3
  {
    var sent := Digis(f);
    Frame([f.entries[1], f.entries[0]] + [Entry(sent[|sent| - 1].addr, true)] + Reverse(Cleared(sent[..|sent| - 1])),
      tail)
  }

  /** The extending nodes still know the hops they appended. */
  predicate KnowsAppended(f: Frame, out: Frame, n: nat, later: seq<seq<Slot>>, es: seq<Setting>)
    requires f.Valid() && out.Valid() && |out.entries| == |f.entries| + n && |later| == |es| == n + 1
  {
    forall i :: 0 <= i < n ==> StillKnows(later[i], f.IdAt(1), f.IdAt(0), out.IdAt(|f.entries| + i), es[i])
  }

  lemma {:induction false} AnswerReturns(calls: seq<Call>, f: Frame, out: Frame, n: nat, later: seq<seq<Slot>>,
                                         es: seq<Setting>, tail: seq<bv8>)
    requires f.Valid() && out.Valid() && |f.entries| >= 3 && n >= 1 && tail != []
    requires |calls| == |later| == |es| == n + 1
    requires |out.entries| == |f.entries| + n
    requires forall i :: 0 <= i <= n ==> out.IdAt(|f.entries| - 1 + i) == calls[i]
    requires out.entries[..|f.entries| - 1] == f.entries[..|f.entries| - 1]
    requires out.entries[|f.entries| - 1].addr == f.entries[|f.entries| - 1].addr
    requires KnowsAppended(f, out, n, later, es)
    ensures Brought(CarryBack(calls, later, es, Reply(out, tail)), AnswerSeen(f, tail), n, later, es, f.IdAt(1),
              f.IdAt(0))
  {
    hide *;
    var m := |f.entries| - 1;
    var u, d := f.entries[1], f.entries[0];
    var names, a := Addrs(out.entries[m..m + n]), out.entries[m + n].addr;
    var rest := Reverse(Cleared(f.entries[2..m]));
    AnswerFrame(f, out, n, tail);
    NamesAreCalls(calls, out, m, n);
    AnswerStarts(calls, names, a, later, es, u, d, rest, Reply(out, tail));
    HopsBehind(f, out, n, later, es);
    BackThroughChain(calls[..n], later[..n], es[..n], names, a, u, d, rest, tail);
    AnswerForm(f, out, n, tail);
    IdIs(f, 1);
    IdIs(f, 0);
    BroughtBefore(CarryBack(calls, later, es, Reply(out, tail)),
      CarryBack(calls[..n], later[..n], es[..n], InFlight(u, d, a, Reverse(Cleared(Plainly(names))) + rest, tail)),
      AnswerSeen(f, tail), later, es, f.IdAt(1), f.IdAt(0));
  }

  lemma {:induction false} NamesAreCalls(calls: seq<Call>, out: Frame, m: nat, n: nat)
    requires |calls| == n + 1 && |out.entries| == m + n + 1 && forall i :: 0 <= i <= n ==> out.IdAt(m + i) == calls[i]
    ensures forall i :: 0 <= i < n ==> calls[..n][i] == Addrs(out.entries[m..m + n])[i].Id()
    ensures calls[n] == out.entries[m + n].addr.Id()
  {
    forall i | 0 <= i < n ensures calls[..n][i] == Addrs(out.entries[m..m + n])[i].Id() {
      assert out.IdAt(m + i) == calls[i];
    }
    assert out.IdAt(m + n) == calls[n];
  }

  /** The answer as DEST sends it, in terms of what the originator sent. */
  lemma {:induction false} AnswerFrame(f: Frame, out: Frame, n: nat, tail: seq<bv8>)
    requires f.Valid() && out.Valid() && |f.entries| >= 3 && n >= 1
    requires |out.entries| == |f.entries| + n
    requires out.entries[..|f.entries| - 1] == f.entries[..|f.entries| - 1]
    ensures var m := |f.entries| - 1;
            Reply(out, tail).entries ==
            [f.entries[1], f.entries[0]] + ([Entry(out.entries[m + n].addr, false)]
              + (Reverse(Cleared(Plainly(Addrs(out.entries[m..m + n])))) + Reverse(Cleared(f.entries[2..m]))))
    ensures Reply(out, tail).tail == tail
  {
    hide Reverse, Cleared, Plainly, Addrs;
    var m := |f.entries| - 1;
    assert out.entries[0] == out.entries[..m][0] && out.entries[1] == out.entries[..m][1];
    assert out.entries[2..m] == out.entries[..m][2..m] == f.entries[..m][2..m] == f.entries[2..m];
    ReplyForm(out, m, n);
  }

  /** Behind node `i` stands the next appended hop, and the node knows it. */
  lemma {:induction false} HopBehind(f: Frame, out: Frame, n: nat, i: nat, later: seq<seq<Slot>>, es: seq<Setting>)
    requires f.Valid() && out.Valid() && i < n && |f.entries| >= 3 && |out.entries| == |f.entries| + n &&
             |later| == |es| == n + 1
    requires StillKnows(later[i], f.IdAt(1), f.IdAt(0), out.IdAt(|f.entries| + i), es[i])
    ensures var m := |f.entries| - 1; var names := Addrs(out.entries[m..m + n]);
            StillKnows(later[..n][i], f.entries[1].addr.Id(), f.entries[0].addr.Id(),
                       (if i == n - 1 then out.entries[m + n].addr else names[i + 1]).Id(), es[..n][i])
  {
    hide *;
    var m := |f.entries| - 1;
    if i < n - 1 { assert out.entries[m..m + n][i + 1] == out.entries[m + 1 + i]; }
    IdIs(out, m + 1 + i);
    IdIs(f, 1);
    IdIs(f, 0);
  }

  lemma {:induction false} HopsBehind(f: Frame, out: Frame, n: nat, later: seq<seq<Slot>>, es: seq<Setting>)
    requires f.Valid() && out.Valid() && |f.entries| >= 3 && n >= 1 && |out.entries| == |f.entries| + n &&
             |later| == |es| == n + 1
    requires KnowsAppended(f, out, n, later, es)
    ensures var m := |f.entries| - 1;
            KnownAlong(later[..n], es[..n], Addrs(out.entries[m..m + n]), out.entries[m + n].addr,
              f.entries[1].addr.Id(), f.entries[0].addr.Id())
  {
    hide StillKnows;
    var m := |f.entries| - 1;
    var names := Addrs(out.entries[m..m + n]);
    forall i | 0 <= i < n
      ensures StillKnows(later[..n][i], f.entries[1].addr.Id(), f.entries[0].addr.Id(),
                         (if i == n - 1 then out.entries[m + n].addr else names[i + 1]).Id(), es[..n][i])
    {
      HopBehind(f, out, n, i, later, es);
    }
  }

  lemma {:induction false} IdIs(f: Frame, i: nat)
    requires i < |f.entries|
    ensures f.IdAt(i) == f.entries[i].addr.Id()
  {
  }

  lemma {:induction false} AnswerForm(f: Frame, out: Frame, n: nat, tail: seq<bv8>)
    requires f.Valid() && out.Valid() && |f.entries| >= 3 && n >= 1 && |out.entries| == |f.entries| + n
    requires out.entries[|f.entries| - 1].addr == f.entries[|f.entries| - 1].addr
    ensures var m := |f.entries| - 1; var names := Addrs(out.entries[m..m + n]);
            names != [] && InFlight(f.entries[1], f.entries[0], names[0], Reverse(Cleared(f.entries[2..m])), tail) ==
              AnswerSeen(f, tail)
  {
    hide Reverse, Cleared;
    assert Digis(f)[..|Digis(f)| - 1] == f.entries[2..|f.entries| - 1];
  }

  /** The same frame comes back, one more node having sent it on before the others. */
  predicate SameBack(c: Option<(Frame, seq<int>)>, rest: Option<(Frame, seq<int>)>)
  {
    if rest.None? then c.None?
    else c.Some? && c.value.0 == rest.value.0 && |c.value.1| == |rest.value.1| + 1 && rest.value.1 <= c.value.1
  }

  lemma {:induction false} BroughtBefore(c: Option<(Frame, seq<int>)>, rest: Option<(Frame, seq<int>)>, g: Frame,
                                         later: seq<seq<Slot>>, es: seq<Setting>, user: Call, dest: Call)
    requires |later| == |es| >= 1 && SameBack(c, rest)
    requires var n := |later| - 1; Brought(rest, g, n, later[..n], es[..n], user, dest)
    ensures Brought(c, g, |later| - 1, later, es, user, dest)
  {
  }

  /** The same if that node sent it back too. */
  lemma {:induction false} BroughtOneMore(c: Option<(Frame, seq<int>)>, rest: Option<(Frame, seq<int>)>, g: Frame,
                                          later: seq<seq<Slot>>, es: seq<Setting>, user: Call, dest: Call)
    requires |later| == |es| >= 1 && SameBack(c, rest)
    requires var n := |later| - 1;
             Brought(rest, g, n, later[..n], es[..n], user, dest) && (rest.Some? ==> |rest.value.1| == n) &&
             (c.Some? ==> GoesBack(later[n], user, dest, c.value.1[n], es[n]))
    ensures Brought(c, g, |later|, later, es, user, dest)
  {
    hide GoesBack;
  }

  lemma {:induction false} AnswerStarts(calls: seq<Call>, names: seq<Addr>, a: Addr, later: seq<seq<Slot>>,
                                        es: seq<Setting>, u: Entry, d: Entry, rest: seq<Entry>, reply: Frame)
    requires |names| >= 1 && |calls| == |later| == |es| == |names| + 1 && reply.Valid() && calls[|names|] == a.Id()
    requires reply.entries == [u, d] + ([Entry(a, false)] + (Reverse(Cleared(Plainly(names))) + rest))
    ensures var n := |names|; var g := InFlight(u, d, a, Reverse(Cleared(Plainly(names))) + rest, reply.tail);
            g.Valid() && SameBack(CarryBack(calls, later, es, reply), CarryBack(calls[..n], later[..n], es[..n], g))
  {
    var n := |names|;
    var middle := Reverse(Cleared(Plainly(names))) + rest;
    assert [u, d] + ([Entry(a, false)] + middle) == [u, d] + [Entry(a, false)] + middle;
    LastNodeDigipeats(later[n], es[n], u, d, a, middle, reply.tail);
    assert reply.entries[2] == Entry(a, false) && reply.IdAt(2) == calls[n];
    CarryBackOne(calls, later, es, reply, 2, InFlight(u, d, a, middle, reply.tail));
  }

  lemma {:induction false} CarryBackOne(calls: seq<Call>, later: seq<seq<Slot>>, es: seq<Setting>, f: Frame, our: nat,
                                        g: Frame)
    requires |calls| == |later| == |es| >= 1 && f.Valid()
    requires FirstPending(f.entries, 2) == our < |f.entries| && f.IdAt(our) == calls[|calls| - 1]
    requires var o := Process(later[|later| - 1], f, our, es[|es| - 1]).out;
             o.Sent? && o.at < |o.frame.entries| && Digipeated(o.frame, o.at) == g
    ensures g.Valid()
    ensures var n := |later| - 1; var c := CarryBack(calls, later, es, f);
            && SameBack(c, CarryBack(calls[..n], later[..n], es[..n], g))
            && (c.Some? ==> c.value.1[n] == Process(later[n], f, our, es[n]).out.toPort)
  {
    VisitLowers(later[|later| - 1], f, our, es[|es| - 1]);
  }

  lemma {:induction false} ReplyForm(out: Frame, m: nat, n: nat)
    requires out.Valid() && 2 <= m && |out.entries| == m + n + 1
    ensures Reverse(Cleared(Digis(out))) ==
            [Entry(out.entries[m + n].addr, false)] +
              (Reverse(Cleared(Plainly(Addrs(out.entries[m..m + n])))) + Reverse(Cleared(out.entries[2..m])))
  {
    hide Reverse, Cleared, Plainly, Addrs;
    var es, last := out.entries, Entry(out.entries[m + n].addr, false);
    var before, mid := Cleared(es[2..m]), Cleared(es[m..m + n]);
    assert Digis(out) == (es[2..m] + es[m..m + n]) + [es[m + n]];
    ClearedConcat(es[2..m] + es[m..m + n], [es[m + n]]);
    ClearedConcat(es[2..m], es[m..m + n]);
    ClearedPlainly(es[m..m + n]);
    assert Cleared([es[m + n]]) == [last];
    ReverseSnoc(before + mid, last);
    ReverseSplit(before, mid);
  }

  lemma {:induction false} ClearedConcat(a: seq<Entry>, b: seq<Entry>)
    ensures Cleared(a + b) == Cleared(a) + Cleared(b)
  {
  }

  lemma {:induction false} ClearedPlainly(es: seq<Entry>)
    ensures Cleared(Plainly(Addrs(es))) == Cleared(es)
  {
  }
}
