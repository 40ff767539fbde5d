/** Handing a path traversal on to the next node: flex_forward_path_req. */
module PathForward {
  import opened Base
  import opened Text
  import opened PathCodec

  /** What routing says about the target when the request is forwarded: the
      neighbour to use, if any, and whether that is the peer that asked. */
  datatype NextHop = NoSession | Asker | Peer(name: string)

  predicate InChain(name: string, hops: seq<string>) { exists i :: 0 <= i < |hops| && SameText(hops[i], name) }

  /** The names of the forwarded frame: the chain with `name` before the target. */
  function Extended(origin: string, hops: seq<string>, name: string, target: string): seq<string>
    requires hops != []
  {
    [origin] + hops[..|hops| - 1] + [name, target]
  }

  function Header(d: string): (h: string)
    requires |d| >= HEADER && d[1] as int < 256
    ensures |h| == HEADER
  {
    [d[0], ((d[1] as int + 1) % 256) as char] + d[2..HEADER]
  }

  /** The frame sent on, or None when the node declines. */
  function Forward(enabled: bool, d: string, origin: string, hops: seq<string>, target: string,
                   next: NextHop): Option<string>
    requires |d| >= 2 ==> d[1] as int < 256
  {
    if !enabled || |d| < HEADER || hops == [] || !next.Peer? || next.name == "" then None
    else if SameText(origin, next.name) || InChain(next.name, hops) || |hops| + 1 >= MAX_HOPS then None
    else
      var body := Joined(Extended(origin, hops, next.name, target));
      if HEADER + |body| + 1 >= FRAME_MAX then None else Some(Header(d) + body + "\r")
  }

  method ForwardPathReq(enabled: bool, d: string, origin: string, hops: seq<string>, target: string, next: NextHop)
    returns (r: Option<string>)
    requires |d| >= 2 ==> d[1] as int < 256
    ensures r == Forward(enabled, d, origin, hops, target, next)
  {
    hide Joined, SameText;
    if !enabled || |d| < HEADER || hops == [] || !next.Peer? || next.name == "" {
      return None;
    }
    if SameText(origin, next.name) {
      return None;
    }
    var i := 0;
    while i < |hops|
      invariant 0 <= i <= |hops|
      invariant forall k :: 0 <= k < i ==> !SameText(hops[k], next.name)
    {
      if SameText(hops[i], next.name) {
        return None;
      }
      i := i + 1;
    }
    if |hops| + 1 >= MAX_HOPS {
      return None;
    }
    var parts := [origin] + hops[..|hops| - 1] + [next.name, target];
    assert parts == Extended(origin, hops, next.name, target);
    var body := "";
    JoinedNone();
    i := 0;
    while i < |parts|
      invariant 0 <= i <= |parts|
      invariant body == Joined(parts[..i])
      invariant i > 0 ==> HEADER + |body| + 1 < FRAME_MAX
    {
      JoinedSnoc(parts[..i], parts[i]);
      assert parts[..i + 1] == parts[..i] + [parts[i]];
      if HEADER + |body| + (if i == 0 then 0 else 1) + |parts[i]| + 1 >= FRAME_MAX {
        JoinedMonotone(parts, i + 1);
        return None;
      }
      body := body + (if i == 0 then "" else " ") + parts[i];
      i := i + 1;
    }
    assert parts[..i] == parts;
    return Some(Header(d) + body + "\r");
  }

  lemma {:induction false} JoinedMonotone(ws: seq<string>, n: nat)
    requires 1 <= n <= |ws|
    ensures |Joined(ws[..n])| <= |Joined(ws)|
    decreases |ws| - n
  {
    if n < |ws| {
      JoinedMonotone(ws, n + 1);
      assert ws[..n + 1] == ws[..n] + [ws[n]];
      JoinedSnoc(ws[..n], ws[n]);
    } else {
      assert ws[..n] == ws;
    }
  }

  lemma {:induction false} JoinedBound(ws: seq<string>)
    requires AllNames(ws)
    ensures |Joined(ws)| <= 10 * |ws|
  {
    if |ws| > 1 {
      JoinedBound(ws[1..]);
    }
  }

  // ----- what the forwarded frame says

  /** The request a node received and may forward: parsed, a request, with a
      target; the target handed to the forwarder is the last name of the chain. */
  predicate Received(d: string, p: Path)
  {
    ParsePath(d) == Some(p) && !p.isReply && p.hops != [] && d[1] as int < 256
  }

  function Target(p: Path): string
    requires p.hops != []
  {
    p.hops[|p.hops| - 1]
  }

  lemma {:induction false} ParsedNames(d: string, p: Path)
    requires ParsePath(d) == Some(p) && p.hops != []
    ensures AllNames([p.origin] + p.hops)
  {
    NamesAreNames(d[HEADER..], MAX_HOPS + 1);
    var ws := Names(d[HEADER..], MAX_HOPS + 1);
    assert [p.origin] + p.hops == ws;
  }

  /** A node forwards a request exactly when forwarding is on, it has a session
      other than the asker's toward the target, that neighbour is not in the chain
      yet, and the chain has fewer than fifteen names after the origin. The length
      limit of the frame never decides. */
  lemma {:induction false} ForwardsWhen(d: string, p: Path, enabled: bool, next: NextHop)
    requires Received(d, p) && (next.Peer? ==> WireName(next.name))
    ensures Forward(enabled, d, p.origin, p.hops, Target(p), next).Some? <==>
            enabled && next.Peer? && !InChain(next.name, [p.origin] + p.hops) && |p.hops| < 15
  {
    ParsedNames(d, p);
    if next.Peer? {
      var all := [p.origin] + p.hops;
      assert all[0] == p.origin;
      if InChain(next.name, p.hops) {
        var i :| 0 <= i < |p.hops| && SameText(p.hops[i], next.name);
        assert SameText(all[i + 1], next.name);
      }
      if InChain(next.name, all) {
        var i :| 0 <= i < |all| && SameText(all[i], next.name);
        assert i > 0 ==> SameText(p.hops[i - 1], next.name);
      }
      if |p.hops| < MAX_HOPS - 1 {
        var ws := Extended(p.origin, p.hops, next.name, Target(p));
        ExtendedNames(p, next.name);
        JoinedBound(ws);
      }
    }
  }

  lemma {:induction false} ExtendedNames(p: Path, name: string)
    requires p.hops != [] && AllNames([p.origin] + p.hops) && WireName(name)
    ensures AllNames(Extended(p.origin, p.hops, name, Target(p)))
  {
    var all := [p.origin] + p.hops;
    var ws := Extended(p.origin, p.hops, name, Target(p));
    forall i | 0 <= i < |ws| ensures WireName(ws[i]) {
      if i < |p.hops| {
        assert ws[i] == all[i];
      } else if i == |p.hops| + 1 {
        assert ws[i] == all[|p.hops|];
      }
    }
  }

  /** The hop count a frame announces: its second byte counts from 0x20, and reads as
      zero below that. */
  function CountOf(hop: int): int { if hop >= 0x20 then hop - 0x20 else 0 }

  /** The forwarded frame parses to the same origin, target, QSO number and trace
      mark, with one new hop before the target and the hop count one higher; a hop
      byte of 255 wraps to zero, and one below 0x20 still reads as zero. */
  lemma {:induction false} ForwardedReads(d: string, p: Path, next: NextHop)
    requires Received(d, p) && (next.Peer? ==> WireName(next.name))
    requires Forward(true, d, p.origin, p.hops, Target(p), next).Some?
    ensures var g := Forward(true, d, p.origin, p.hops, Target(p), next).value;
            && |g| >= 2 && g[1] as int == (d[1] as int + 1) % 256
            && ParsePath(g) ==
                 Some(p.(hopCount := if 0x20 <= d[1] as int <= 254 then p.hopCount + 1 else 0,
                         hops := p.hops[..|p.hops| - 1] + [next.name, Target(p)]))
  {
    hide Names, QsoOf, Joined, AllNames, HasTrace, InChain, SameText;
    ParsedNames(d, p);
    ExtendedNames(p, next.name);
    var g := Forward(true, d, p.origin, p.hops, Target(p), next).value;
    var ws := Extended(p.origin, p.hops, next.name, Target(p));
    var hop := ((d[1] as int + 1) % 256) as char;
    var field := d[2..HEADER];
    assert g == [d[0], hop] + field + (Joined(ws) + "\r");
    FrameReads(d[0], hop, field, ws, "\r");
    HeaderSplit(d[0], hop, field, Joined(ws) + "\r");
    assert ws[1..] == p.hops[..|p.hops| - 1] + [next.name, Target(p)];
  }

  /** Whatever names it is handed, the forwarder sends nothing longer than fits its 256
      bytes with one to spare, and refuses for want of room only what does not. */
  lemma {:induction false} ForwardedFits(d: string, origin: string, hops: seq<string>, target: string, name: string)
    requires |d| >= 7 && d[1] as int < 256 && hops != [] && name != "" && |hops| < 15
    requires !InChain(name, [origin] + hops)
    ensures var r := Forward(true, d, origin, hops, target, Peer(name));
            var n := |Joined([origin] + hops[..|hops| - 1] + [name, target])|;
            && (r.Some? <==> 7 + n + 1 < 256)
            && (r.Some? ==> |r.value| == 7 + n + 1)
  {
    hide SameText, Joined;
    var all := [origin] + hops;
    assert all[0] == origin;
    forall i | 0 <= i < |hops| ensures !SameText(hops[i], name) { assert all[i + 1] == hops[i]; }
  }

  predicate DistinctNames(ws: seq<string>)
  {
    forall i, j :: 0 <= i < j < |ws| ==> !SameText(ws[i], ws[j])
  }

  /** A chain without repetition stays without repetition. */
  lemma {:induction false} ForwardKeepsDistinct(p: Path, name: string)
    requires p.hops != [] && DistinctNames([p.origin] + p.hops) && !InChain(name, [p.origin] + p.hops)
    ensures DistinctNames(Extended(p.origin, p.hops, name, Target(p)))
  {
    var all := [p.origin] + p.hops;
    var ws := Extended(p.origin, p.hops, name, Target(p));
    var n := |p.hops|;
    assert forall i :: 0 <= i < n ==> ws[i] == all[i];
    assert ws[n] == name && ws[n + 1] == all[n];
    assert forall i :: 0 <= i <= n ==> !SameText(all[i], name);
  }

  // ----- a whole traversal

  /** A request handed from node to node, each choosing a neighbour by tables of
      its own. */
  function Traverse(d: string, nexts: seq<NextHop>): Option<string>
    requires |d| >= 2 ==> d[1] as int < 256
    decreases |nexts|
  {
    if nexts == [] then Some(d)
    else
      match ParsePath(d)
      case None => None
      case Some(p) =>
        if p.isReply || p.hops == [] then None
        else
          match Forward(true, d, p.origin, p.hops, Target(p), nexts[0])
          case None => None
          case Some(g) => Traverse(g, nexts[1..])
  }

  /** A traversal ends, whatever the network and its tables: after at most fourteen
      hand-overs nobody forwards it any more. What arrives after them has the origin,
      QSO number, trace mark and target of what was sent, one more name in the chain
      and one more in the hop count for each, and distinct names if they were. */
  lemma {:induction false} TraversalEnds(d: string, nexts: seq<NextHop>, p: Path)
    requires Received(d, p) && |nexts| > 0
    requires forall i :: 0 <= i < |nexts| && nexts[i].Peer? ==> WireName(nexts[i].name)
    requires Traverse(d, nexts).Some?
    ensures |nexts| <= 15 - |p.hops| <= 14
    ensures var r := Traverse(d, nexts).value; var b := (d[1] as int + |nexts|) % 256;
            && ParsePath(r).Some? && var q := ParsePath(r).value;
            && q == p.(hopCount := CountOf(b), hops := q.hops) && |q.hops| == |p.hops| + |nexts|
            && Target(q) == Target(p)
            && (0x20 <= d[1] as int && d[1] as int + |nexts| <= 255 ==> q.hopCount == p.hopCount + |nexts|)
            && (DistinctNames([p.origin] + p.hops) ==> DistinctNames([q.origin] + q.hops))
    decreases |nexts|
  {
    hide ParsePath, Forward, DistinctNames, Received, CountOf, InChain;
    ReceivedCount(d, p);
    var g := Forward(true, d, p.origin, p.hops, Target(p), nexts[0]).value;
    HandOver(d, p, nexts[0]);
    var q := ParsePath(g).value;
    ByteAdds(d[1] as int, |nexts| - 1);
    if |nexts| > 1 {
      TraversalEnds(g, nexts[1..], q);
    } else {
      assert nexts[1..] == [];
    }
    CountAdds(d[1] as int, |nexts|);
  }

  lemma {:induction false} ByteAdds(b: int, n: nat)
    requires 0 <= b < 256
    ensures ((b + 1) % 256 + n) % 256 == (b + (n + 1)) % 256
  {
  }

  lemma {:induction false} CountAdds(b: int, n: nat)
    requires 0 <= b < 256
    ensures 0x20 <= b && b + n <= 255 ==> CountOf((b + n) % 256) == CountOf(b) + n
  {
  }

  /** One hand-over. */
  lemma {:induction false} HandOver(d: string, p: Path, next: NextHop)
    requires Received(d, p) && (next.Peer? ==> WireName(next.name))
    requires Forward(true, d, p.origin, p.hops, Target(p), next).Some?
    ensures |p.hops| < 15
    ensures var g := Forward(true, d, p.origin, p.hops, Target(p), next).value;
            && |g| >= 2 && g[1] as int == (d[1] as int + 1) % 256
            && ParsePath(g).Some? && var q := ParsePath(g).value;
            && Received(g, q) && |q.hops| == |p.hops| + 1 && Target(q) == Target(p)
            && q == p.(hopCount := CountOf(g[1] as int), hops := q.hops)
            && (DistinctNames([p.origin] + p.hops) ==> DistinctNames([q.origin] + q.hops))
  {
    hide ParsePath, Forward, DistinctNames, Received, InChain;
    ReceivedCount(d, p);
    ForwardsWhen(d, p, true, next);
    ForwardedReads(d, p, next);
    var g := Forward(true, d, p.origin, p.hops, Target(p), next).value;
    var q := ParsePath(g).value;
    ReceivedAgain(g, q);
    if DistinctNames([p.origin] + p.hops) {
      ForwardKeepsDistinct(p, next.name);
      assert [q.origin] + q.hops == Extended(p.origin, p.hops, next.name, Target(p));
    }
  }

  lemma {:induction false} ReceivedCount(d: string, p: Path)
    requires Received(d, p)
    ensures |d| >= 2 && d[1] as int < 256 && p.hopCount == CountOf(d[1] as int)
    ensures !p.isReply && p.hops != [] && ParsePath(d) == Some(p)
  {
  }

  lemma {:induction false} ReceivedAgain(d: string, p: Path)
    requires ParsePath(d) == Some(p) && !p.isReply && p.hops != [] && d[1] as int < 256
    ensures Received(d, p)
  {
  }
}
