/** Compact route records: how a frame of them is written and read back. */
module CompactCodec {
  import opened Base
  import opened Text

  const RTT_WIRE_MAX := 4095
  const SSID_BASE := 0x30
  const PAYLOAD_MAX := 2047

  datatype Rec = Rec(call: string, lo: int, hi: int, cost: int)

  /** A call as records carry it: one to six characters, none of them a space or
      NUL, the first one not a line end. */
  predicate WireCall(c: string)
  {
    && 1 <= |c| <= 6 && c[0] != '\r' && c[0] != '\n'
    && forall i :: 0 <= i < |c| ==> c[i] != ' ' && c[i] != '\0'
  }

  predicate WireRec(r: Rec)
  {
    WireCall(r.call) && 0 <= r.lo <= 15 && 0 <= r.hi <= 15 && 0 <= r.cost < 1000000
  }

  // ----- writing

  function WireCost(cost: int): int
  {
    if RTT_WIRE_MAX < cost < INFINITY then RTT_WIRE_MAX else cost
  }

  function Spaces(n: nat): (s: string)
    ensures |s| == n && forall i :: 0 <= i < n ==> s[i] == ' '
  {
    seq(n, i => ' ')
  }

  /** "%-6.6s" */
  function Pad6(call: string): (s: string)
    ensures |s| == 6
  {
    if |call| >= 6 then call[..6] else call + Spaces(6 - |call|)
  }

  function SsidChar(ssid: int): char
    requires 0 <= ssid <= 15
  {
    (SSID_BASE + ssid) as char
  }

  predicate Writable(r: Rec) { 0 <= r.lo <= 15 && 0 <= r.hi <= 15 && 0 <= r.cost }

  /** A record without its trailing space. */
  function RecBody(r: Rec): (s: string)
    requires Writable(r)
    ensures |s| >= 9
  {
    Pad6(r.call) + [SsidChar(r.lo), SsidChar(r.hi)] + Decimal(WireCost(r.cost))
  }

  /** flex_build_route_rec, given enough room. */
  function RouteRec(r: Rec): string
    requires Writable(r)
  {
    RecBody(r) + " "
  }

  predicate AllWritable(rs: seq<Rec>) { forall i :: 0 <= i < |rs| ==> Writable(rs[i]) }

  predicate AllWire(rs: seq<Rec>) { forall i :: 0 <= i < |rs| ==> WireRec(rs[i]) }

  function PackRecs(rs: seq<Rec>): string
    requires AllWritable(rs)
  {
    if rs == [] then "" else RouteRec(rs[0]) + PackRecs(rs[1..])
  }

  /** One '3', the records, one carriage return. */
  function Pack(rs: seq<Rec>): string
    requires AllWritable(rs)
  {
    "3" + PackRecs(rs) + "\r"
  }

  lemma {:induction false} PackRecsSnoc(rs: seq<Rec>, r: Rec)
    requires AllWritable(rs) && Writable(r)
    ensures PackRecs(rs + [r]) == PackRecs(rs) + RouteRec(r)
  {
    if rs == [] {
      assert rs + [r] == [r];
      assert PackRecs([r]) == RouteRec(r) + "";
    } else {
      assert (rs + [r])[1..] == rs[1..] + [r];
      PackRecsSnoc(rs[1..], r);
    }
  }

  // ----- the frame classifier

  datatype FrameType = Keepalive | StatusPos | StatusNeg | Status10 | Status1N | Init | LinkTime
                     | Token | PathReq | PathRep | Compact | Unknown

  /** flex_parse_ce_frame; `lt3` is FLEXNETLT3BYTE. */
  function Classify(d: string, lt3: bool): FrameType
  {
    if |d| <= 0 then Unknown
    else if |d| >= 2 && d[0] == '2' && d[1] == ' ' then Keepalive
    else if lt3 && |d| == 3 && d[0] == '1' && IsDigit(d[1]) && d[2] == '\r' then LinkTime
    else if d == "3+\r" then StatusPos
    else if d == "3-\r" then StatusNeg
    else if d == "10\r" then Status10
    else if |d| == 3 && d[0] == '1' && '1' <= d[1] <= '9' && d[2] == '\r' then Status1N
    else if d[0] == '0' && |d| >= 2 then Init
    else if d[0] == '1' && |d| > 3 then LinkTime
    else if d[0] == '4' && |d| >= 3 then Token
    else if d[0] == '6' then PathReq
    else if d[0] == '7' then PathRep
    else if d[0] == '3' then Compact
    else Unknown
  }

  // ----- reading

  /** The first NUL ends a C string. */
  function CString(s: string): (r: string)
    ensures r <= s
    ensures forall i :: 0 <= i < |r| ==> r[i] != '\0'
  {
    if s == [] || s[0] == '\0' then [] else [s[0]] + CString(s[1..])
  }

  lemma {:induction false} CStringWhole(s: string)
    requires forall i :: 0 <= i < |s| ==> s[i] != '\0'
    ensures CString(s) == s
  {
    if s != [] { CStringWhole(s[1..]); }
  }

  function Payload(d: string): string
    requires |d| >= 1
  {
    CString(d[1..1 + Min(|d| - 1, PAYLOAD_MAX)])
  }

  function StripEol(s: string): (r: string)
    ensures r <= s
  {
    if s != [] && (s[|s| - 1] == '\r' || s[|s| - 1] == '\n') then StripEol(s[..|s| - 1]) else s
  }

  function StripSpaces(s: string): (r: string)
    ensures r <= s
  {
    if s != [] && s[|s| - 1] == ' ' then StripSpaces(s[..|s| - 1]) else s
  }

  /** Body of the record list, and whether the whole batch is a withdrawal. */
  function Trimmed(payload: string): (string, bool)
  {
    var a := StripEol(payload);
    if a != [] && a[|a| - 1] == '-' then (StripSpaces(a[..|a| - 1]), true) else (StripSpaces(a), false)
  }

  function NonSpaces(s: string): string
  {
    if s == [] then [] else (if s[0] == ' ' then [] else [s[0]]) + NonSpaces(s[1..])
  }

  /** A `char` is signed: bytes above 127 read as negative. */
  function SignedChar(c: char): int { if c as int < 128 then c as int else c as int - 256 }

  function SsidOf(c: char): int
  {
    var v := SignedChar(c) - SSID_BASE;
    if v < 0 then 0 else if v > 15 then 15 else v
  }

  function CostOf(digits: string, withdrawal: bool): int
    requires AllDigits(digits)
  {
    if withdrawal then INFINITY else ValueOf(digits)
  }

  /** The record loop of flex_parse_compact_records. */
  function ParseRecs(p: string, withdrawal: bool, max: nat): seq<Rec>
    decreases |p|
  {
    if p == [] || max == 0 then []
    else
      var q := SkipSpaces(p);
      if |q| < 8 || q[0] == '\r' || q[0] == '\n' || NonSpaces(q[..6]) == "" then []
      else
        var digits := TakeDigits(q[8..], 6);
        [Rec(NonSpaces(q[..6]), SsidOf(q[6]), SsidOf(q[7]), CostOf(digits, withdrawal))]
        + ParseRecs(SkipSpaces(q[8 + |digits|..]), withdrawal, max - 1)
  }

  function Parse(d: string, max: nat): seq<Rec>
  {
    if |d| < 4 || d[0] != '3' then []
    else
      var t := Trimmed(Payload(d));
      ParseRecs(t.0, t.1, max)
  }

  // ----- the parser as the loops it is; a C pointer is the string it points at

  method ParseCompact(d: string, max: nat) returns (out: seq<Rec>)
    ensures out == Parse(d, max)
  {
    hide NonSpaces, TakeDigits, SkipSpaces, SsidOf, Payload, Trimmed, ParseRecs;
    out := [];
    if |d| < 4 || d[0] != '3' {
      return;
    }
    var body, withdrawal := TrimEnd(Payload(d));
    ghost var all := ParseRecs(body, withdrawal, max);
    var p := body;
    while p != [] && |out| < max
      invariant |out| <= max
      invariant all == out + ParseRecs(p, withdrawal, max - |out|)
      decreases |p|
    {
      var q := SkipAhead(p);
      if q == [] || q[0] == '\r' || q[0] == '\n' || |q| < 8 {
        NoMoreRecords(p, withdrawal, max - |out|);
        return;
      }
      var call := CallField(q[..6]);
      if |call| == 0 {
        NoMoreRecords(p, withdrawal, max - |out|);
        return;
      }
      var digits, rest := DigitField(q[8..]);
      var r := Rec(call, SsidOf(q[6]), SsidOf(q[7]), if withdrawal then INFINITY else ValueOf(digits));
      NextRecord(p, withdrawal, max - |out|);
      assert rest == q[8 + |digits|..];
      p := SkipAhead(rest);
      assert all == (out + [r]) + ParseRecs(p, withdrawal, max - |out| - 1);
      out := out + [r];
    }
    NoMoreRecords(p, withdrawal, max - |out|);
  }

  lemma {:induction false} NoMoreRecords(p: string, withdrawal: bool, max: nat)
    requires var q := SkipSpaces(p);
             p == [] || max == 0 || |q| < 8 || q[0] == '\r' || q[0] == '\n' || NonSpaces(q[..6]) == ""
    ensures ParseRecs(p, withdrawal, max) == []
  {
  }

  lemma {:induction false} NextRecord(p: string, withdrawal: bool, max: nat)
    requires p != [] && max > 0
    requires var q := SkipSpaces(p); |q| >= 8 && q[0] != '\r' && q[0] != '\n' && NonSpaces(q[..6]) != ""
    ensures var q := SkipSpaces(p); var digits := TakeDigits(q[8..], 6);
            ParseRecs(p, withdrawal, max) ==
            [Rec(NonSpaces(q[..6]), SsidOf(q[6]), SsidOf(q[7]), CostOf(digits, withdrawal))]
            + ParseRecs(SkipSpaces(q[8 + |digits|..]), withdrawal, max - 1)
  {
  }

  /** Trailing CR/LF, the withdrawal mark, trailing spaces. */
  method TrimEnd(payload: string) returns (body: string, withdrawal: bool)
    ensures (body, withdrawal) == Trimmed(payload)
  {
    body := payload;
    while body != [] && (body[|body| - 1] == '\r' || body[|body| - 1] == '\n')
      invariant StripEol(body) == StripEol(payload)
    {
      body := body[..|body| - 1];
    }
    withdrawal := body != [] && body[|body| - 1] == '-';
    if withdrawal {
      body := body[..|body| - 1];
    }
    ghost var before := body;
    while body != [] && body[|body| - 1] == ' '
      invariant StripSpaces(body) == StripSpaces(before)
    {
      body := body[..|body| - 1];
    }
  }

  method SkipAhead(s: string) returns (p: string)
    ensures p == SkipSpaces(s)
  {
    p := s;
    while p != [] && p[0] == ' '
      invariant SkipSpaces(p) == SkipSpaces(s)
    {
      p := p[1..];
    }
  }

  method CallField(s: string) returns (call: string)
    ensures call == NonSpaces(s)
  {
    call := "";
    var p := s;
    while p != []
      invariant call + NonSpaces(p) == NonSpaces(s)
    {
      if p[0] != ' ' {
        call := call + [p[0]];
      }
      p := p[1..];
    }
  }

  method DigitField(s: string) returns (digits: string, p: string)
    ensures digits == TakeDigits(s, 6) && p == s[|digits|..]
  {
    hide TakeDigits;
    digits, p := "", s;
    ghost var all := TakeDigits(s, 6);
    while p != [] && IsDigit(p[0]) && |digits| < 6
      invariant |digits| <= 6 && |digits| <= |s| && p == s[|digits|..]
      invariant all == digits + TakeDigits(p, 6 - |digits|)
    {
      TakeDigitsStep(p, 6 - |digits|);
      digits := digits + [p[0]];
      p := p[1..];
    }
    TakeDigitsStep(p, 6 - |digits|);
  }

  // ----- round trip

  /** What a peer reads for a record we wrote: costs up to 4095 as they are, larger ones
      as 4095, from 60000 on as they are again; all as 60000 in a batch that is marked
      as withdrawn. */
  function Received(r: Rec, withdrawal: bool): Rec
  {
    r.(cost := if withdrawal then 60000 else if 4095 < r.cost < 60000 then 4095 else r.cost)
  }

  function ReceivedAll(rs: seq<Rec>, withdrawal: bool): (t: seq<Rec>)
    ensures |t| == |rs|
    ensures forall i :: 0 <= i < |rs| ==> t[i] == Received(rs[i], withdrawal)
  {
    seq(|rs|, i requires 0 <= i < |rs| => Received(rs[i], withdrawal))
  }

  /** The records of a frame without the last trailing space. */
  function BodyOf(rs: seq<Rec>): string
    requires AllWritable(rs)
  {
    if rs == [] then "" else if |rs| == 1 then RecBody(rs[0]) else RouteRec(rs[0]) + BodyOf(rs[1..])
  }

  lemma {:induction false} NonSpacesOfPadding(call: string, n: nat)
    requires forall i :: 0 <= i < |call| ==> call[i] != ' '
    ensures NonSpaces(call + Spaces(n)) == call
    decreases |call|, n
  {
    if call != [] {
      assert (call + Spaces(n))[1..] == call[1..] + Spaces(n);
      NonSpacesOfPadding(call[1..], n);
    } else if n > 0 {
      assert call + Spaces(n) == Spaces(n) && Spaces(n)[1..] == Spaces(n - 1);
      assert call + Spaces(n - 1) == Spaces(n - 1);
      NonSpacesOfPadding(call, n - 1);
    } else {
      assert call + Spaces(n) == [];
    }
  }

  lemma {:induction false} PadReadsBack(call: string)
    requires WireCall(call)
    ensures NonSpaces(Pad6(call)) == call && Pad6(call)[0] == call[0]
  {
    NonSpacesOfPadding(call, 6 - |call|);
    assert call + Spaces(0) == call;
  }

  lemma {:induction false} RecFields(r: Rec, rest: string)
    requires WireRec(r)
    ensures var p := RecBody(r) + rest; var d := Decimal(WireCost(r.cost));
            && |p| >= 9 && p[..6] == Pad6(r.call) && p[6] == SsidChar(r.lo) && p[7] == SsidChar(r.hi)
            && p[8..] == d + rest && p[8 + |d|..] == rest
  {
    hide Pad6, Decimal, WireCall;
    var p, d := RecBody(r) + rest, Decimal(WireCost(r.cost));
    assert p[8..] == d + rest;
    assert p[8 + |d|..] == p[8..][|d|..];
  }

  lemma {:induction false} SmallCost(n: nat)
    requires n < 1000000
    ensures |Decimal(n)| <= 6
  {
    assert Pow10(3) == 1000;
    assert Pow10(6) == 1000 * Pow10(3);
    DecimalLength(n, 6);
  }

  /** Reading one record off the front. */
  lemma {:induction false} RecReadsBack(r: Rec, rest: string, withdrawal: bool, max: nat)
    requires WireRec(r) && max > 0 && (rest == [] || rest[0] == ' ')
    ensures ParseRecs(RecBody(r) + rest, withdrawal, max) ==
            [Received(r, withdrawal)] + ParseRecs(SkipSpaces(rest), withdrawal, max - 1)
  {
    hide Pad6, Decimal, NonSpaces, TakeDigits, ParseRecs, RecBody;
    var p, d := RecBody(r) + rest, Decimal(WireCost(r.cost));
    PadReadsBack(r.call);
    RecFields(r, rest);
    assert p[0] == p[..6][0] == r.call[0];
    assert SkipSpaces(p) == p;
    SmallCost(WireCost(r.cost));
    TakeDigitsExact(d, rest, 6);
    ValueOfDecimal(WireCost(r.cost));
    NextRecord(p, withdrawal, max);
  }

  lemma {:induction false} BodyStarts(rs: seq<Rec>)
    requires AllWire(rs) && rs != []
    ensures |BodyOf(rs)| >= 9 && BodyOf(rs)[0] != ' '
  {
    PadReadsBack(rs[0].call);
    assert RecBody(rs[0])[0] == Pad6(rs[0].call)[0];
  }

  lemma {:induction false} BodyReadsBack(rs: seq<Rec>, withdrawal: bool, max: nat)
    requires AllWire(rs)
    ensures ParseRecs(BodyOf(rs), withdrawal, max) == ReceivedAll(rs[..Min(max, |rs|)], withdrawal)
    decreases |rs|
  {
    hide RecBody, WireCall, Received, ParseRecs, SkipSpaces;
    if rs == [] || max == 0 {
      NoMoreRecords(BodyOf(rs), withdrawal, max);
    } else if |rs| == 1 {
      assert BodyOf(rs) == RecBody(rs[0]) + [];
      RecReadsBack(rs[0], [], withdrawal, max);
      SkipNothing();
      NoMoreRecords([], withdrawal, max - 1);
      assert ReceivedAll(rs[..1], withdrawal) == [Received(rs[0], withdrawal)];
    } else {
      var tail := rs[1..];
      BodyReadsBack(tail, withdrawal, max - 1);
      BodyStarts(tail);
      var rest := " " + BodyOf(tail);
      assert BodyOf(rs) == RecBody(rs[0]) + rest;
      RecReadsBack(rs[0], rest, withdrawal, max);
      SkipOneSpace(BodyOf(tail));
      ReceivedTail(rs, withdrawal, max);
    }
  }

  lemma {:induction false} SkipNothing()
    ensures SkipSpaces([]) == []
  {
  }

  lemma {:induction false} SkipOneSpace(s: string)
    requires s != [] && s[0] != ' '
    ensures SkipSpaces(" " + s) == s
  {
    assert (" " + s)[1..] == s;
  }

  lemma {:induction false} ReceivedTail(rs: seq<Rec>, withdrawal: bool, max: nat)
    requires |rs| > 1 && max > 0
    ensures ReceivedAll(rs[..Min(max, |rs|)], withdrawal) ==
            [Received(rs[0], withdrawal)] + ReceivedAll(rs[1..][..Min(max - 1, |rs| - 1)], withdrawal)
  {
  }

  lemma {:induction false} PackIsBodyAndSpace(rs: seq<Rec>)
    requires AllWritable(rs) && rs != []
    ensures PackRecs(rs) == BodyOf(rs) + " "
  {
    if |rs| == 1 {
      assert PackRecs(rs) == RouteRec(rs[0]) + "";
    } else {
      PackIsBodyAndSpace(rs[1..]);
    }
  }

  lemma {:induction false} RecBodyNoNul(r: Rec)
    requires WireRec(r)
    ensures forall i :: 0 <= i < |RecBody(r)| ==> RecBody(r)[i] != '\0'
    ensures IsDigit(RecBody(r)[|RecBody(r)| - 1])
  {
    var d := Decimal(WireCost(r.cost));
    forall i | 0 <= i < |RecBody(r)| ensures RecBody(r)[i] != '\0' {
      if i < 6 {
        assert RecBody(r)[i] == Pad6(r.call)[i];
      } else if i >= 8 {
        assert RecBody(r)[i] == d[i - 8];
      }
    }
    assert RecBody(r)[|RecBody(r)| - 1] == d[|d| - 1];
  }

  lemma {:induction false} BodyNoNul(rs: seq<Rec>)
    requires AllWire(rs) && rs != []
    ensures forall i :: 0 <= i < |BodyOf(rs)| ==> BodyOf(rs)[i] != '\0'
    ensures BodyOf(rs) != [] && IsDigit(BodyOf(rs)[|BodyOf(rs)| - 1])
  {
    RecBodyNoNul(rs[0]);
    if |rs| > 1 {
      BodyNoNul(rs[1..]);
    }
  }

  lemma {:induction false} TrimOfPacked(body: string)
    requires body != [] && IsDigit(body[|body| - 1])
    ensures Trimmed(body + " " + "\r") == (body, false)
  {
    var a := body + " ";
    var p := a + "\r";
    assert p[..|p| - 1] == a && a[|a| - 1] == ' ';
    assert StripEol(a) == a;
    assert StripEol(p) == a;
    assert a[..|a| - 1] == body;
    assert StripSpaces(body) == body;
  }

  /** A frame packed from any list of valid records is classified COMPACT and is
      read back, up to the reader's limit, as exactly that list in order; a cost a
      peer cannot represent comes back as 4095. */
  lemma {:induction false} CompactRoundTrip(rs: seq<Rec>, max: nat, lt3: bool)
    requires AllWire(rs) && |Pack(rs)| <= 2048
    ensures Classify(Pack(rs), lt3) == Compact
    ensures Parse(Pack(rs), max) == ReceivedAll(rs[..Min(max, |rs|)], false)
  {
    hide RecBody, WireCall, Received, ParseRecs, Trimmed, BodyOf, PackRecs;
    var d := Pack(rs);
    if rs == [] {
      assert d == "3\r" by { EmptyPack(); }
    } else {
      var body := BodyOf(rs);
      PackIsBodyAndSpace(rs);
      BodyNoNul(rs);
      BodyStarts(rs);
      PayloadOfPacked(body);
      TrimOfPacked(body);
      BodyReadsBack(rs, false, max);
    }
  }

  lemma {:induction false} EmptyPack()
    ensures Pack([]) == "3\r"
  {
  }

  lemma {:induction false} PayloadOfPacked(body: string)
    requires forall i :: 0 <= i < |body| ==> body[i] != '\0'
    requires |body| >= 1 && |body| + 2 <= PAYLOAD_MAX
    ensures Payload("3" + (body + " ") + "\r") == body + " " + "\r"
  {
    var d, t := "3" + (body + " ") + "\r", body + " " + "\r";
    assert d[1..1 + Min(|d| - 1, PAYLOAD_MAX)] == t;
    CStringWhole(t);
  }

  /** Costs a peer can represent, and the withdrawal value, come back unchanged. */
  lemma {:induction false} ExactCostsSurvive(rs: seq<Rec>, max: nat)
    requires AllWire(rs) && |Pack(rs)| <= 2048 && |rs| <= max
    requires forall i :: 0 <= i < |rs| ==> rs[i].cost <= 4095 || rs[i].cost == 60000
    ensures Parse(Pack(rs), max) == rs
  {
    CompactRoundTrip(rs, max, false);
    assert rs[..Min(max, |rs|)] == rs;
    assert ReceivedAll(rs, false) == rs;
  }

  // ----- a batch of withdrawals

  lemma {:induction false} TrimOfWithdrawn(body: string)
    requires body != [] && IsDigit(body[|body| - 1])
    ensures Trimmed(body + " " + "-\r") == (body, true)
  {
    var a := body + " " + "-";
    var p := body + " " + "-\r";
    assert p[..|p| - 1] == a && a[|a| - 1] == '-';
    assert StripEol(a) == a;
    assert StripEol(p) == a;
    assert a[..|a| - 1] == body + " ";
    assert (body + " ")[..|body|] == body;
    assert StripSpaces(body) == body;
    assert StripSpaces(body + " ") == body;
  }

  lemma {:induction false} PayloadOfWithdrawn(body: string)
    requires forall i :: 0 <= i < |body| ==> body[i] != '\0'
    requires |body| >= 1 && |body| + 3 <= PAYLOAD_MAX
    ensures Payload("3" + (body + " ") + "-\r") == body + " " + "-\r"
  {
    var d, t := "3" + (body + " ") + "-\r", body + " " + "-\r";
    assert d[1..1 + Min(|d| - 1, PAYLOAD_MAX)] == t;
    CStringWhole(t);
  }

  /** Records followed by '-' before the line end are all withdrawn, whatever costs they
      carry. */
  lemma {:induction false} WithdrawnBatch(rs: seq<Rec>, max: nat)
    requires AllWire(rs) && rs != [] && 3 + |PackRecs(rs)| <= 2048
    ensures Parse("3" + PackRecs(rs) + "-\r", max) == ReceivedAll(rs[..Min(max, |rs|)], true)
  {
    hide RecBody, WireCall, Received, ParseRecs, Trimmed, BodyOf, PackRecs;
    var body := BodyOf(rs);
    PackIsBodyAndSpace(rs);
    BodyNoNul(rs);
    BodyStarts(rs);
    PayloadOfWithdrawn(body);
    TrimOfWithdrawn(body);
    BodyReadsBack(rs, true, max);
  }
}
