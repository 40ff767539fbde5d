/** The formats byte by byte: what each frame type looks like, where a record's fields
  * stand, and how a reader takes fields that are not as a writer makes them.
  */
module WireFacts {
  import opened Base
  import opened Text
  import opened CompactCodec
  import opened PathCodec

  /** Which frames are taken for which type, however the tests are ordered. */
  lemma {:induction false} FrameTypes(d: string, lt3: bool)
    ensures var t := Classify(d, lt3); var short := |d| == 3 && d[0] == '1' && '0' <= d[1] <= '9' && d[2] == '\r';
            && (t == Keepalive <==> |d| >= 2 && d[..2] == "2 ")
            && (t == StatusPos <==> d == "3+\r")
            && (t == StatusNeg <==> d == "3-\r")
            && (t == Compact <==> |d| >= 1 && d[0] == '3' && d != "3+\r" && d != "3-\r")
            && (t == Init <==> |d| >= 2 && d[0] == '0')
            && (t == LinkTime <==> |d| >= 1 && d[0] == '1' && (|d| > 3 || (lt3 && short)))
            && (t == Status10 <==> !lt3 && d == "10\r")
            && (t == Status1N <==> !lt3 && short && d[1] != '0')
            && (t == Token <==> |d| >= 3 && d[0] == '4')
            && (t == PathReq <==> |d| >= 1 && d[0] == '6')
            && (t == PathRep <==> |d| >= 1 && d[0] == '7')
  {
    assert |d| >= 2 ==> (d[..2] == "2 " <==> d[0] == '2' && d[1] == ' ');
  }

  /** What we build is what a peer takes it for. */
  lemma {:induction false} BuiltFramesClassified(room: nat, qso: int, trace: bool, origin: string, nextHop: string,
                                                 target: string, chain: seq<string>, lt3: bool)
    ensures BuildReq(room, qso, trace, origin, nextHop, target).Some? ==>
              Classify(BuildReq(room, qso, trace, origin, nextHop, target).value, lt3) == PathReq
    ensures BuildRep(room, qso, trace, chain).Some? ==>
              Classify(BuildRep(room, qso, trace, chain).value, lt3) == PathRep
  {
    hide QsoField, Joined, Chain, Classify;
    if BuildReq(room, qso, trace, origin, nextHop, target).Some? {
      FrameTypes(BuildReq(room, qso, trace, origin, nextHop, target).value, lt3);
    }
    if BuildRep(room, qso, trace, chain).Some? { FrameTypes(BuildRep(room, qso, trace, chain).value, lt3); }
  }

  // ----- a route record

  /** Six characters of call, padded with spaces, the two SSIDs as characters from '0' on,
      the cost in decimal, at most 4095 unless it is a withdrawal, and a space. */
  lemma {:induction false} RecordBytes(r: Rec)
    requires WireRec(r)
    ensures var s := RouteRec(r); var cost := if 4095 < r.cost < 60000 then 4095 else r.cost;
            && 10 <= |s| <= 15
            && s[..|r.call|] == r.call && (forall i :: |r.call| <= i < 6 ==> s[i] == ' ')
            && s[6] as int == 0x30 + r.lo && s[7] as int == 0x30 + r.hi
            && s[8..|s| - 1] == Decimal(cost) && s[|s| - 1] == ' '
  {
    hide Decimal;
    var cost := if 4095 < r.cost < 60000 then 4095 else r.cost;
    assert WireCost(r.cost) == cost;
    SmallCost(cost);
    var s := RouteRec(r);
    assert s == Pad6(r.call) + [SsidChar(r.lo), SsidChar(r.hi)] + Decimal(cost) + " ";
    assert s[..6] == Pad6(r.call);
    assert s[..|r.call|] == s[..6][..|r.call|];
  }

  /** A reader takes any byte for an SSID: those below '0', and those above 127, for 0, and
      those above '?' for 15. */
  lemma {:induction false} SsidBytes(c: char)
    requires c as int < 256
    ensures SsidOf(c) == if 0x30 <= c as int <= 0x3F then c as int - 0x30 else if 0x3F < c as int < 0x80 then 15 else 0
  {
  }

  // ----- the QSO field and the names of a path frame

  /** The trace mark adds 0x40 to the first character and changes nothing else. */
  lemma {:induction false} TraceMark(qso: int)
    ensures var f, g := QsoField(qso, false), QsoField(qso, true);
            && |f| == |g| == 5 && g[1..] == f[1..] && g[0] as int == f[0] as int + 0x40
            && forall i :: 0 <= i < 5 ==> IsDigit(f[i]) || f[i] == ' '
  {
    var n := (if qso < 0 then 0 else qso) % 100000;
    var d := Decimal(n);
    FiveDigits(n);
    var f := PathCodec.Blanks(5 - |d|) + d;
    forall i | 0 <= i < 5 ensures IsDigit(f[i]) || f[i] == ' ' {
      if i >= 5 - |d| { assert f[i] == d[i - (5 - |d|)]; }
    }
  }

  predicate NoDigits(s: string) { forall i :: 0 <= i < |s| ==> !IsDigit(s[i]) }

  function Blanked(s: string): (r: string)
    ensures |r| == |s| && forall i :: 0 <= i < |s| ==> r[i] == DigitOrSpace(s[i])
  {
    seq(|s|, i requires 0 <= i < |s| => DigitOrSpace(s[i]))
  }

  lemma {:induction false} SkipBlanked(a: string, s: string)
    requires NoDigits(a) && s != [] && IsDigit(s[0])
    ensures SkipSpaces(Blanked(a) + s) == s
  {
    if a == [] {
      assert Blanked(a) + s == s;
    } else {
      assert (Blanked(a) + s)[1..] == Blanked(a[1..]) + s;
      SkipBlanked(a[1..], s);
    }
  }

  /** Whatever stands in the field, the number is that of its first run of digits, the
      trace mark left out. */
  lemma {:induction false} QsoIsFirstNumber(field: string, a: string, d: string, b: string)
    requires |field| == 5 && [WithoutTrace(field[0])] + field[1..] == a + d + b
    requires NoDigits(a) && d != [] && AllDigits(d) && (b == [] || !IsDigit(b[0]))
    ensures QsoOf(field) == ValueOf(d)
  {
    hide WithoutTrace, SkipSpaces, TakeDigits, ValueOf;
    var g := [WithoutTrace(field[0])] + field[1..];
    var m := [DigitOrSpace(WithoutTrace(field[0]))] + seq(4, i requires 0 <= i < 4 => DigitOrSpace(field[i + 1]));
    assert m == Blanked(g);
    assert Blanked(g) == Blanked(a) + (d + Blanked(b)) by {
      assert Blanked(g) == Blanked(a) + Blanked(d) + Blanked(b);
      assert Blanked(d) == d;
    }
    SkipBlanked(a, d + Blanked(b));
    var t := d + Blanked(b);
    TakeDigitsExact(d, Blanked(b), |t|);
  }

  /** A name ends at a space, a carriage return or a NUL, and after nine characters. */
  lemma {:induction false} NamesAreShort(d: string, p: Path)
    requires ParsePath(d) == Some(p) && p.hops != []
    ensures |p.hops| <= 16
    ensures forall k :: 0 <= k < |p.hops| ==> IsName(p.hops[k])
    ensures IsName(p.origin)
  {
    NamesAreNames(d[HEADER..], MAX_HOPS + 1);
    var ws := Names(d[HEADER..], MAX_HOPS + 1);
    assert ws == [p.origin] + p.hops;
    forall k | 0 <= k < |ws| ensures IsName(ws[k]) {
      assert WireName(ws[k]);
    }
    forall k | 0 <= k < |p.hops| ensures IsName(p.hops[k]) {
      assert p.hops[k] == ws[k + 1];
    }
  }

  predicate IsName(w: string)
  {
    1 <= |w| <= 9 && forall i :: 0 <= i < |w| ==> w[i] != ' ' && w[i] != '\r' && w[i] != '\0'
  }

  /** And nothing else ends one: such a name is read whole. */
  lemma {:induction false} NameReadWhole(w: string, rest: string)
    requires IsName(w) && (rest == [] || rest[0] == ' ' || rest[0] == '\r' || rest[0] == '\0')
    ensures TakeName(w + rest, NAME_MAX) == w
  {
    TakeNameExact(w, rest, NAME_MAX);
  }

  /** A request is built exactly when it fits the room, and a reply when it names between
      one and sixteen nodes and fits with a byte to spare. */
  lemma {:induction false} BuiltWhen(room: nat, qso: int, trace: bool, origin: string, nextHop: string,
                                     target: string, chain: seq<string>)
    ensures BuildReq(room, qso, trace, origin, nextHop, target).Some? <==>
              7 + |origin| + 1 + |nextHop| + 1 + |target| <= room
    ensures BuildRep(room, qso, trace, chain).Some? <==>
              1 <= |chain| <= 16 && 7 <= room && (Chain(chain) == "" || 7 + |Chain(chain)| < room)
    ensures BuildRep(room, qso, trace, chain).Some? ==>
              |BuildRep(room, qso, trace, chain).value| == 7 + |Chain(chain)|
  {
    hide QsoField, Chain;
    assert [origin, nextHop, target][1..] == [nextHop, target] && [nextHop, target][1..] == [target];
    assert Joined([target]) == target;
    assert Joined([nextHop, target]) == nextHop + " " + target;
    assert Joined([origin, nextHop, target]) == origin + " " + (nextHop + " " + target);
  }
}
