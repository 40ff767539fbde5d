/** Path requests and replies (CE types 6 and 7): text form, and what a node does
  * when it hands a traversal on.
  */
module PathCodec {
  import opened Base
  import opened Text

  const QSO_LEN := 5
  const HEADER := 7
  const HOP_BYTE_BASE := 0x20
  const TRACE_BIT := 0x40
  const MAX_HOPS := 16
  const NAME_MAX := 9
  const FRAME_MAX := 256

  datatype Path = Path(isReply: bool, qso: nat, trace: bool, hopCount: nat, origin: string, hops: seq<string>)

  // ----- one byte of a frame

  predicate HasTrace(c: char) { (c as int / TRACE_BIT) % 2 == 1 }

  function WithTrace(c: char): char
    requires c as int < 256
  {
    if HasTrace(c) then c else (c as int + TRACE_BIT) as char
  }

  function WithoutTrace(c: char): char { if HasTrace(c) && c as int < 256 then (c as int - TRACE_BIT) as char else c }

  // ----- reading

  function DigitOrSpace(c: char): char { if IsDigit(c) then c else ' ' }

  function QsoOf(field: string): nat
    requires |field| == QSO_LEN
  {
    Atoi([DigitOrSpace(WithoutTrace(field[0]))] + seq(4, i requires 0 <= i < 4 => DigitOrSpace(field[i + 1])))
  }

  predicate EndsName(c: char) { c == ' ' || c == '\r' || c == '\0' }

  /** The next name: characters up to a separator, at most nine. */
  function TakeName(s: string, max: nat): (w: string)
    ensures |w| <= max && |w| <= |s|
  {
    if s == [] || max == 0 || EndsName(s[0]) then [] else [s[0]] + TakeName(s[1..], max - 1)
  }

  /** The name loop of flex_parse_path_frame. */
  function Names(s: string, left: nat): (ws: seq<string>)
    ensures |ws| <= left
    decreases left
  {
    if left == 0 then []
    else
      var t := SkipSpaces(s);
      var w := TakeName(t, NAME_MAX);
      if w == [] then [] else [w] + Names(t[|w|..], left - 1)
  }

  function ParsePath(d: string): (r: Option<Path>)
    ensures r.Some? ==> |d| >= HEADER && |r.value.hops| <= MAX_HOPS
  {
    if |d| < HEADER || (d[0] != '6' && d[0] != '7') then None
    else
      var ws := Names(d[HEADER..], MAX_HOPS + 1);
      Some(Path(d[0] == '7', QsoOf(d[2..HEADER]), HasTrace(d[2]),
                if d[1] as int >= HOP_BYTE_BASE then d[1] as int - HOP_BYTE_BASE else 0,
                if ws == [] then "" else ws[0], if ws == [] then [] else ws[1..]))
  }

  method ParsePathFrame(d: string) returns (r: Option<Path>)
    ensures r == ParsePath(d)
  {
    if |d| < HEADER || (d[0] != '6' && d[0] != '7') {
      return None;
    }
    var hopCount := if d[1] as int >= HOP_BYTE_BASE then d[1] as int - HOP_BYTE_BASE else 0;
    var names := NameList(d[HEADER..]);
    return Some(Path(d[0] == '7', QsoOf(d[2..HEADER]), HasTrace(d[2]), hopCount,
                     if names == [] then "" else names[0], if names == [] then [] else names[1..]));
  }

  method NameList(s: string) returns (names: seq<string>)
    ensures names == Names(s, MAX_HOPS + 1)
  {
    hide Names, TakeName, SkipSpaces;
    names := [];
    ghost var all := Names(s, MAX_HOPS + 1);
    var p := s;
    while |names| < MAX_HOPS + 1
      invariant |names| <= MAX_HOPS + 1
      invariant all == names + Names(p, MAX_HOPS + 1 - |names|)
      decreases MAX_HOPS + 1 - |names|
    {
      var q := PassBlanks(p);
      var call, rest := NameAt(q);
      NamesStep(p, MAX_HOPS + 1 - |names|);
      if call == [] {
        return;
      }
      assert all == (names + [call]) + Names(rest, MAX_HOPS + 1 - |names| - 1);
      names := names + [call];
      p := rest;
    }
    NamesNone(p);
  }

  lemma {:induction false} NamesStep(s: string, left: nat)
    requires left > 0
    ensures var t := SkipSpaces(s); var w := TakeName(t, NAME_MAX);
            Names(s, left) == if w == [] then [] else [w] + Names(t[|w|..], left - 1)
  {
  }

  lemma {:induction false} NamesNone(s: string)
    ensures Names(s, 0) == []
  {
  }

  method PassBlanks(s: string) returns (p: string)
    ensures p == SkipSpaces(s)
  {
    p := s;
    while p != [] && p[0] == ' '
      invariant SkipSpaces(p) == SkipSpaces(s)
    {
      p := p[1..];
    }
  }

  method NameAt(s: string) returns (call: string, rest: string)
    ensures call == TakeName(s, NAME_MAX) && rest == s[|call|..]
  {
    hide TakeName, EndsName;
    call, rest := [], s;
    ghost var all := TakeName(s, NAME_MAX);
    while rest != [] && !EndsName(rest[0]) && |call| < NAME_MAX
      invariant |call| <= NAME_MAX && |call| <= |s| && rest == s[|call|..]
      invariant all == call + TakeName(rest, NAME_MAX - |call|)
    {
      TakeNameStep(rest, NAME_MAX - |call|);
      call := call + [rest[0]];
      rest := rest[1..];
    }
    TakeNameStep(rest, NAME_MAX - |call|);
  }

  lemma {:induction false} TakeNameStep(s: string, max: nat)
    ensures TakeName(s, max) == if s == [] || max == 0 || EndsName(s[0]) then [] else [s[0]] + TakeName(s[1..], max - 1)
  {
  }

  // ----- writing

  function Blanks(n: nat): (s: string)
    ensures |s| == n && forall i :: 0 <= i < n ==> s[i] == ' '
  {
    seq(n, i => ' ')
  }

  /** "%5u" of qso mod 100000, with the trace bit on its first character. */
  function QsoField(qso: int, trace: bool): (f: string)
    ensures |f| == QSO_LEN
  {
    var n := (if qso < 0 then 0 else qso) % 100000;
    FiveDigits(n);
    var f := Blanks(QSO_LEN - |Decimal(n)|) + Decimal(n);
    if trace then [WithTrace(f[0])] + f[1..] else f
  }

  lemma {:induction false} FiveDigits(n: nat)
    requires n < 100000
    ensures |Decimal(n)| <= QSO_LEN
  {
    assert Pow10(3) == 1000;
    assert Pow10(5) == 100 * Pow10(3);
    DecimalLength(n, 5);
  }

  function Joined(ws: seq<string>): string
  {
    if ws == [] then "" else if |ws| == 1 then ws[0] else ws[0] + " " + Joined(ws[1..])
  }

  /** flex_build_path_req */
  function BuildReq(room: nat, qso: int, trace: bool, origin: string, nextHop: string, target: string): Option<string>
  {
    var f := "6" + [(HOP_BYTE_BASE + 1) as char] + QsoField(qso, trace) + Joined([origin, nextHop, target]);
    if |f| > room then None else Some(f)
  }

  /** The chain of a reply: empty names are skipped, the others but the first
      are preceded by a space. */
  function Chain(ws: seq<string>): string
  {
    if ws == [] then ""
    else
      var n := |ws| - 1;
      Chain(ws[..n]) + (if ws[n] == "" then "" else if n == 0 then ws[n] else " " + ws[n])
  }

  /** flex_build_path_rep */
  function BuildRep(room: nat, qso: int, trace: bool, chain: seq<string>): Option<string>
  {
    if |chain| < 1 || |chain| > MAX_HOPS || room < HEADER then None
    else if Chain(chain) != "" && HEADER + |Chain(chain)| >= room then None
    else Some("7" + [(HOP_BYTE_BASE + |chain|) as char] + QsoField(qso, trace) + Chain(chain))
  }

  method BuildReply(room: nat, qso: int, trace: bool, chain: seq<string>) returns (r: Option<string>)
    ensures r == BuildRep(room, qso, trace, chain)
  {
    hide QsoField;
    if |chain| < 1 || |chain| > MAX_HOPS {
      return None;
    }
    var head := "7" + [(HOP_BYTE_BASE + |chain|) as char] + QsoField(qso, trace);
    if room < HEADER {
      return None;
    }
    var body := "";
    var i := 0;
    while i < |chain|
      invariant 0 <= i <= |chain|
      invariant body == Chain(chain[..i])
      invariant body != "" ==> HEADER + |body| < room
    {
      assert chain[..i + 1][..i] == chain[..i];
      if chain[i] != "" {
        if HEADER + |body| + (if i == 0 then 0 else 1) + |chain[i]| >= room {
          ChainMonotone(chain, i + 1);
          return None;
        }
        body := body + (if i == 0 then "" else " ") + chain[i];
      }
      i := i + 1;
    }
    assert chain[..i] == chain;
    return Some(head + body);
  }

  lemma {:induction false} ChainMonotone(ws: seq<string>, n: nat)
    requires 1 <= n <= |ws|
    ensures |Chain(ws[..n])| <= |Chain(ws)|
    decreases |ws| - n
  {
    if n < |ws| {
      ChainMonotone(ws, n + 1);
      assert ws[..n + 1][..n] == ws[..n];
    } else {
      assert ws[..n] == ws;
    }
  }

  /** Without empty names a reply's chain is the names joined by spaces. */
  lemma {:induction false} ChainIsJoined(ws: seq<string>)
    requires forall i :: 0 <= i < |ws| ==> ws[i] != ""
    ensures Chain(ws) == Joined(ws)
  {
    hide Joined, Chain;
    ChainStep(ws);
    if ws == [] {
      JoinedNone();
    } else {
      var front, w := ws[..|ws| - 1], ws[|ws| - 1];
      ChainIsJoined(front);
      JoinedSnoc(front, w);
      assert ws == front + [w];
    }
  }

  lemma {:induction false} ChainStep(ws: seq<string>)
    ensures Chain(ws) ==
            if ws == [] then ""
            else
              var front, w := ws[..|ws| - 1], ws[|ws| - 1];
              if w == "" then Chain(front) else if front == [] then w else Chain(front) + " " + w
  {
    if ws != [] {
      var front, w := ws[..|ws| - 1], ws[|ws| - 1];
      if w == "" {
        assert Chain(front) + "" == Chain(front);
      } else if front != [] {
        assert Chain(front) + (" " + w) == Chain(front) + " " + w;
      } else {
        assert "" + w == w;
      }
    }
  }

  lemma {:induction false} JoinedNone()
    ensures Joined([]) == ""
  {
  }

  lemma {:induction false} JoinedSnoc(ws: seq<string>, w: string)
    ensures Joined(ws + [w]) == if ws == [] then w else Joined(ws) + " " + w
  {
    if |ws| == 1 {
      assert (ws + [w])[1..] == [w];
    } else if |ws| > 1 {
      assert (ws + [w])[1..] == ws[1..] + [w];
      JoinedSnoc(ws[1..], w);
    }
  }

  // ----- round trips

  /** A callsign as it appears in a path: one to nine characters, no separator. */
  predicate WireName(w: string)
  {
    1 <= |w| <= NAME_MAX && forall i :: 0 <= i < |w| ==> !EndsName(w[i])
  }

  predicate AllNames(ws: seq<string>) { forall i :: 0 <= i < |ws| ==> WireName(ws[i]) }

  lemma {:induction false} TakeNameExact(w: string, rest: string, max: nat)
    requires |w| <= max && forall i :: 0 <= i < |w| ==> !EndsName(w[i])
    requires rest == [] || EndsName(rest[0])
    ensures TakeName(w + rest, max) == w
  {
    if w == [] {
      assert w + rest == rest;
    } else {
      assert (w + rest)[1..] == w[1..] + rest;
      TakeNameExact(w[1..], rest, max - 1);
    }
  }

  /** End of a path body: nothing, or a carriage return. */
  predicate BodyEnd(e: string) { e == "" || e == "\r" }

  lemma {:induction false} NamesOfJoined(ws: seq<string>, e: string, left: nat)
    requires AllNames(ws) && ws != [] && BodyEnd(e) && |ws| <= left
    ensures Names(Joined(ws) + e, left) == ws
    decreases |ws|
  {
    hide Names, TakeName, SkipSpaces;
    var s := Joined(ws) + e;
    if |ws| == 1 {
      FirstName(ws[0], e);
      NamesStep(s, left);
      NamesOfEnd(e, left - 1);
    } else {
      var inner := Joined(ws[1..]) + e;
      assert s == ws[0] + (" " + inner);
      FirstName(ws[0], " " + inner);
      NamesStep(s, left);
      NamesOfJoined(ws[1..], e, left - 1);
      NamesSkipSpace(inner, left - 1);
    }
  }

  lemma {:induction false} FirstName(w: string, rest: string)
    requires WireName(w) && (rest == [] || EndsName(rest[0]))
    ensures SkipSpaces(w + rest) == w + rest
    ensures TakeName(w + rest, NAME_MAX) == w && (w + rest)[|w|..] == rest
  {
    assert (w + rest)[0] == w[0] != ' ';
    TakeNameExact(w, rest, NAME_MAX);
  }

  lemma {:induction false} NamesSkipSpace(s: string, left: nat)
    ensures Names(" " + s, left) == Names(s, left)
  {
    hide TakeName;
    assert (" " + s)[1..] == s;
  }

  lemma {:induction false} NamesOfEnd(e: string, left: nat)
    requires BodyEnd(e)
    ensures Names(e, left) == []
  {
  }

  /** Names read off a frame are names a frame can carry. */
  lemma {:induction false} NamesAreNames(s: string, left: nat)
    ensures AllNames(Names(s, left))
    decreases left
  {
    if left > 0 {
      var t := SkipSpaces(s);
      var w := TakeName(t, NAME_MAX);
      TakeNameClean(t, NAME_MAX);
      if w != [] {
        NamesAreNames(t[|w|..], left - 1);
      }
    }
  }

  lemma {:induction false} TakeNameClean(s: string, max: nat)
    ensures forall i :: 0 <= i < |TakeName(s, max)| ==> !EndsName(TakeName(s, max)[i])
  {
    if s != [] && max > 0 && !EndsName(s[0]) {
      TakeNameClean(s[1..], max - 1);
    }
  }

  lemma {:induction false} SkipBlanks(n: nat, s: string)
    requires s != [] && s[0] != ' '
    ensures SkipSpaces(Blanks(n) + s) == s
  {
    if n == 0 {
      assert Blanks(0) + s == s;
    } else {
      assert (Blanks(n) + s)[1..] == Blanks(n - 1) + s;
      SkipBlanks(n - 1, s);
    }
  }

  /** The trace mark on one character. */
  lemma {:induction false} MarkReads(c: char)
    requires IsDigit(c) || c == ' '
    ensures DigitOrSpace(c) == c && WithoutTrace(c) == c && !HasTrace(c)
    ensures WithoutTrace(WithTrace(c)) == c && HasTrace(WithTrace(c))
  {
  }

  lemma {:induction false} PlainFieldReads(f: string)
    requires |f| == QSO_LEN && forall i :: 0 <= i < QSO_LEN ==> IsDigit(f[i]) || f[i] == ' '
    ensures QsoOf(f) == Atoi(f) && !HasTrace(f[0])
    ensures var g := [WithTrace(f[0])] + f[1..]; |g| == QSO_LEN && QsoOf(g) == Atoi(f) && HasTrace(g[0])
  {
    hide WithTrace, WithoutTrace, HasTrace, DigitOrSpace, Atoi;
    forall i | 0 <= i < QSO_LEN ensures DigitOrSpace(f[i]) == f[i] {
      MarkReads(f[i]);
    }
    MarkReads(f[0]);
    var g := [WithTrace(f[0])] + f[1..];
    assert [DigitOrSpace(WithoutTrace(f[0]))] + seq(4, i requires 0 <= i < 4 => DigitOrSpace(f[i + 1])) == f;
    assert [DigitOrSpace(WithoutTrace(g[0]))] + seq(4, i requires 0 <= i < 4 => DigitOrSpace(g[i + 1])) == f;
  }

  /** The QSO field carries the number modulo 100000 and the trace mark. */
  lemma {:induction false} QsoRoundTrip(qso: int, trace: bool)
    ensures QsoOf(QsoField(qso, trace)) == (if qso < 0 then 0 else qso) % 100000
    ensures HasTrace(QsoField(qso, trace)[0]) == trace
  {
    var n := (if qso < 0 then 0 else qso) % 100000;
    var d := Decimal(n);
    FiveDigits(n);
    var f := Blanks(QSO_LEN - |d|) + d;
    forall i | 0 <= i < QSO_LEN ensures IsDigit(f[i]) || f[i] == ' ' {
      if i >= QSO_LEN - |d| {
        assert f[i] == d[i - (QSO_LEN - |d|)];
      }
    }
    PlainFieldReads(f);
    SkipBlanks(QSO_LEN - |d|, d);
    assert d + [] == d;
    TakeDigitsExact(d, [], |d|);
    ValueOfDecimal(n);
  }

  lemma {:induction false} HeaderSplit(kind: char, hop: char, field: string, body: string)
    requires |field| == QSO_LEN
    ensures var d := [kind, hop] + field + body;
            |d| >= HEADER && d[0] == kind && d[1] == hop && d[2..HEADER] == field && d[2] == field[0] &&
              d[HEADER..] == body
  {
  }

  /** Header, names and their reading. */
  lemma {:induction false} FrameReads(kind: char, hop: char, field: string, ws: seq<string>, e: string)
    requires |field| == QSO_LEN && (kind == '6' || kind == '7')
    requires AllNames(ws) && 1 <= |ws| <= MAX_HOPS + 1 && BodyEnd(e)
    ensures ParsePath([kind, hop] + field + (Joined(ws) + e)) ==
            Some(Path(kind == '7', QsoOf(field), HasTrace(field[0]),
                      if hop as int >= HOP_BYTE_BASE then hop as int - HOP_BYTE_BASE else 0, ws[0], ws[1..]))
  {
    hide Names, QsoOf, Joined, AllNames, HasTrace;
    HeaderSplit(kind, hop, field, Joined(ws) + e);
    NamesOfJoined(ws, e, MAX_HOPS + 1);
  }

  /** A request that fits reads back as what was asked: the origin, one hop, the
      target, the QSO number and the trace mark. */
  lemma {:induction false} RequestRoundTrip(room: nat, qso: int, trace: bool, origin: string, nextHop: string,
                                            target: string)
    requires AllNames([origin, nextHop, target])
    requires BuildReq(room, qso, trace, origin, nextHop, target).Some?
    ensures ParsePath(BuildReq(room, qso, trace, origin, nextHop, target).value) ==
            Some(Path(false, (if qso < 0 then 0 else qso) % 100000, trace, 1, origin, [nextHop, target]))
  {
    hide ParsePath, QsoOf, QsoField, Joined, Chain;
    var ws := [origin, nextHop, target];
    var d := BuildReq(room, qso, trace, origin, nextHop, target).value;
    QsoRoundTrip(qso, trace);
    var hop := (HOP_BYTE_BASE + 1) as char;
    assert d == ['6', hop] + QsoField(qso, trace) + (Joined(ws) + "");
    FrameReads('6', hop, QsoField(qso, trace), ws, "");
    assert ws[1..] == [nextHop, target];
  }

  /** A reply that fits reads back as its chain. */
  lemma {:induction false} ReplyRoundTrip(room: nat, qso: int, trace: bool, chain: seq<string>)
    requires AllNames(chain) && BuildRep(room, qso, trace, chain).Some?
    ensures ParsePath(BuildRep(room, qso, trace, chain).value) ==
            Some(Path(true, (if qso < 0 then 0 else qso) % 100000, trace, |chain|, chain[0], chain[1..]))
  {
    hide ParsePath, QsoOf, QsoField, Joined, Chain;
    var d := BuildRep(room, qso, trace, chain).value;
    QsoRoundTrip(qso, trace);
    ChainIsJoined(chain);
    var hop := (HOP_BYTE_BASE + |chain|) as char;
    assert d == ['7', hop] + QsoField(qso, trace) + (Joined(chain) + "");
    FrameReads('7', hop, QsoField(qso, trace), chain, "");
  }
}
