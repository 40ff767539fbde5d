/** AX.25 frames as FlexNet rewrites them, on two levels.
  *
  * The upper level is a list of address entries (DEST, ORIGIN, then the
  * digipeaters) followed by the bytes after the address field. The lower level
  * is the byte buffer the C code edits in place, where the "end of address" bit
  * is bit 0 of the last entry's seventh byte and the "repeated" bit is bit 7
  * (section 2.2.13 of AX.25 v2.0).
  */
module AxFrame {
  import opened Base

  const MAX_DIGIS := 8
  const MAX_FRAME := 330

  /** What identifies a station: six call bytes and the SSID bits. */
  datatype Call = Call(base: seq<bv8>, ssid: bv8)

  /** A call as it sits in a frame, with the two reserved bits kept. */
  datatype Addr = Addr(base: seq<bv8>, mid: bv8) {
    predicate Valid() { |base| == 6 && mid & 0x81 == 0 }

    function Id(): Call { Call(base, mid & 0x1E) }
  }

  type Hop = a: Addr | a.Valid() witness Addr([0, 0, 0, 0, 0, 0], 0)

  datatype Entry = Entry(addr: Addr, h: bool)

  /** entries[0] is DEST, entries[1] is ORIGIN, the rest are digipeaters. */
  datatype Frame = Frame(entries: seq<Entry>, tail: seq<bv8>) {
    predicate Valid() {
      2 <= |entries| <= 2 + MAX_DIGIS && forall i :: 0 <= i < |entries| ==> entries[i].addr.Valid()
    }

    function DigiCount(): nat
      requires Valid()
    {
      |entries| - 2
    }

    function Length(): nat { 7 * |entries| + |tail| }

    function IdAt(i: nat): Call
      requires i < |entries|
    {
      entries[i].addr.Id()
    }

    predicate Mentions(c: Call) { exists i :: 0 <= i < |entries| && entries[i].addr.Id() == c }
  }

  // ----- the upper level: appending and removing a digipeater

  function Appended(f: Frame, a: Addr): Frame { f.(entries := f.entries + [Entry(a, false)]) }

  function Removed(f: Frame, i: nat): Frame
    requires i < |f.entries|
  {
    f.(entries := Without(f.entries, i))
  }

  // ----- the byte form of a frame

  function EncodeEntry(e: Entry, last: bool): (b: seq<bv8>)
  {
    e.addr.base + [(if e.h then 0x80 else 0) | e.addr.mid | (if last then 1 else 0)]
  }

  function EncodeEntries(es: seq<Entry>): seq<bv8>
  {
    if es == [] then [] else EncodeEntry(es[0], |es| == 1) + EncodeEntries(es[1..])
  }

  function Encode(f: Frame): seq<bv8> { EncodeEntries(f.entries) + f.tail }

  /** The entries before the last one: none of them carries the end bit. */
  function EncodeOpen(es: seq<Entry>): seq<bv8>
  {
    if es == [] then [] else EncodeEntry(es[0], false) + EncodeOpen(es[1..])
  }

  predicate AddrsValid(es: seq<Entry>) { forall i :: 0 <= i < |es| ==> es[i].addr.Valid() }

  lemma {:induction false} EncodeOpenLength(es: seq<Entry>)
    requires AddrsValid(es)
    ensures |EncodeOpen(es)| == 7 * |es|
  {
    if es != [] { EncodeOpenLength(es[1..]); }
  }

  lemma {:induction false} EncodeOpenConcat(es: seq<Entry>, fs: seq<Entry>)
    ensures EncodeOpen(es + fs) == EncodeOpen(es) + EncodeOpen(fs)
  {
    if es == [] {
      assert es + fs == fs;
    } else {
      assert (es + fs)[1..] == es[1..] + fs;
      EncodeOpenConcat(es[1..], fs);
    }
  }

  lemma {:induction false} EncodeSplit(es: seq<Entry>)
    requires es != []
    ensures EncodeEntries(es) == EncodeOpen(es[..|es| - 1]) + EncodeEntry(es[|es| - 1], true)
  {
    if |es| > 1 {
      EncodeSplit(es[1..]);
      assert es[1..][..|es[1..]| - 1] == es[..|es| - 1][1..];
      assert es[..|es| - 1] == [es[0]] + es[..|es| - 1][1..];
    } else {
      assert es[..|es| - 1] == [];
    }
  }

  lemma {:induction false} EncodeLength(es: seq<Entry>)
    requires AddrsValid(es)
    ensures |EncodeEntries(es)| == 7 * |es|
  {
    if es != [] {
      EncodeSplit(es);
      EncodeOpenLength(es[..|es| - 1]);
    }
  }

  /** Where entry `i` starts, and the bytes around it. */
  lemma {:induction false} EncodeOpenAt(es: seq<Entry>, i: nat)
    requires AddrsValid(es) && i < |es|
    ensures |EncodeOpen(es)| == 7 * |es|
    ensures EncodeOpen(es)[7 * i..7 * i + 7] == EncodeEntry(es[i], false)
  {
    hide EncodeOpen, EncodeEntry;
    EncodeOpenLength(es);
    EncodeOpenLength(es[..i]);
    EncodeOpenLength(es[i + 1..]);
    EncodeOpenAround(es, i);
    EntryBits(es[i], false);
  }

  lemma {:induction false} EncodeAt(es: seq<Entry>, i: nat)
    requires AddrsValid(es) && i < |es|
    ensures |EncodeEntries(es)| == 7 * |es|
    ensures EncodeEntries(es)[7 * i..7 * i + 7] == EncodeEntry(es[i], i == |es| - 1)
  {
    EncodeLength(es);
    EncodeSplit(es);
    var front := es[..|es| - 1];
    EncodeOpenLength(front);
    if i < |es| - 1 {
      EncodeOpenAt(front, i);
    }
  }

  // ----- what the loops over the byte buffer compute

  predicate IsEnd(b: bv8) { b & 0x01 != 0 }

  /** flex_l2_addr_last: offset of the first entry, from entry `n` on, with the
      end bit; -1 if ten entries go by without one. */
  function LastFrom(b: seq<bv8>, n: nat): (off: int)
    requires |b| >= 7 * (2 + MAX_DIGIS)
    decreases 2 + MAX_DIGIS - n
  {
    if n >= 2 + MAX_DIGIS then -1
    else if IsEnd(b[7 * n + 6]) then 7 * n
    else LastFrom(b, n + 1)
  }

  predicate SameBytes(a: seq<bv8>, b: seq<bv8>)
    requires |a| == |b| == 7
  {
    a[..6] == b[..6] && a[6] & 0x1E == b[6] & 0x1E
  }

  /** flex_l2_call_in_chain over the digipeaters, from entry `n` on. */
  predicate DigiMatch(b: seq<bv8>, call: seq<bv8>, n: nat)
    requires |b| >= 7 * (2 + MAX_DIGIS) && |call| == 7
    decreases 2 + MAX_DIGIS - n
  {
    if n >= 2 + MAX_DIGIS then false
    else if SameBytes(b[7 * n..7 * n + 7], call) then true
    else if IsEnd(b[7 * n + 6]) then false
    else DigiMatch(b, call, n + 1)
  }

  predicate InChain(b: seq<bv8>, call: seq<bv8>)
    requires |b| >= 7 * (2 + MAX_DIGIS) && |call| == 7
  {
    || SameBytes(b[..7], call)
    || SameBytes(b[7..14], call)
    || (!IsEnd(b[13]) && DigiMatch(b, call, 2))
  }

  /** flex_l2_digi_count, with `n` digipeaters counted already: it stops after eight. */
  function CountFrom(b: seq<bv8>, n: nat): (k: nat)
    requires |b| >= 7 * (2 + MAX_DIGIS) && n <= MAX_DIGIS
    ensures n <= k <= MAX_DIGIS
    decreases MAX_DIGIS - n
  {
    if n == MAX_DIGIS then n else if IsEnd(b[7 * (2 + n) + 6]) then n + 1 else CountFrom(b, n + 1)
  }

  function DigisIn(b: seq<bv8>): (k: nat)
    requires |b| >= 7 * (2 + MAX_DIGIS)
    ensures k <= MAX_DIGIS
  {
    if IsEnd(b[13]) then 0 else CountFrom(b, 0)
  }

  function CallIn(b: seq<bv8>, i: nat): Call
    requires 7 * i + 7 <= |b|
  {
    Call(b[7 * i..7 * i + 6], b[7 * i + 6] & 0x1E)
  }

  /** An entry read from its seven bytes. */
  function DecodeEntry(b: seq<bv8>): Entry
    requires |b| == 7
  {
    Entry(Addr(b[..6], b[6] & 0x7E), b[6] & 0x80 != 0)
  }

  function DecodeEntries(b: seq<bv8>, n: nat): (es: seq<Entry>)
    requires 7 * n <= |b|
    ensures |es| == n
  {
    if n == 0 then [] else [DecodeEntry(b[..7])] + DecodeEntries(b[7..], n - 1)
  }

  /** The frame that bytes with an end bit at offset `last` carry. */
  function Decode(b: seq<bv8>, last: nat): Frame
    requires last % 7 == 0 && last + 7 <= |b|
  {
    Frame(DecodeEntries(b, last / 7 + 1), b[last + 7..])
  }

  /** flex_l2_append_digi on the live bytes, given the last entry's offset. */
  function AppendBytes(b: seq<bv8>, last: nat, call: seq<bv8>): seq<bv8>
    requires last + 7 <= |b| && |call| == 7
  {
    b[..last + 6] + [b[last + 6] & 0xFE] + call[..6] + [(call[6] & 0x7E) | 0x01] + b[last + 7..]
  }

  /** flex_l2_remove_digi on the live bytes. */
  function RemoveBytes(b: seq<bv8>, off: nat): seq<bv8>
    requires 14 <= off && off + 7 <= |b|
  {
    var cut := b[..off] + b[off + 7..];
    if !IsEnd(b[off + 6]) then cut
    else if off >= 21 then cut[off - 1 := cut[off - 1] | 0x01]
    else cut[13 := cut[13] | 0x01]
  }

  function AddrOf(call: seq<bv8>): Addr
    requires |call| == 7
  {
    Addr(call[..6], call[6] & 0x7E)
  }

  // ----- refinement: the byte edits are the list edits

  lemma {:induction false} EntryBits(e: Entry, last: bool)
    requires e.addr.Valid()
    ensures |EncodeEntry(e, last)| == 7
    ensures IsEnd(EncodeEntry(e, last)[6]) == last
    ensures EncodeEntry(e, last)[6] & 0xFE == EncodeEntry(e, false)[6]
    ensures EncodeEntry(e, last)[6] | 0x01 == EncodeEntry(e, true)[6]
    ensures EncodeEntry(e, last)[6] & 0x1E == e.addr.mid & 0x1E
    ensures (EncodeEntry(e, last)[6] & 0x80 != 0) == e.h
    ensures EncodeEntry(e, last)[..6] == e.addr.base
  {
  }

  /** The scan finds the last entry of an encoded frame, wherever it starts. */
  lemma {:induction false} LastFromFinds(f: Frame, b: seq<bv8>, n: nat)
    requires f.Valid() && |b| >= 70 && Encode(f) <= b && n < |f.entries|
    ensures LastFrom(b, n) == 7 * (|f.entries| - 1)
    decreases |f.entries| - n
  {
    hide IsEnd, EncodeEntry, EncodeEntries;
    EncodeAt(f.entries, n);
    EntryBits(f.entries[n], n == |f.entries| - 1);
    var code := EncodeEntries(f.entries);
    assert b[7 * n + 6] == code[7 * n + 6] == code[7 * n..7 * n + 7][6];
    if n < |f.entries| - 1 {
      LastFromFinds(f, b, n + 1);
    }
  }

  lemma {:induction false} EntrySlice(f: Frame, b: seq<bv8>, n: nat)
    requires f.Valid() && |b| >= 70 && Encode(f) <= b && n < |f.entries|
    ensures b[7 * n..7 * n + 7] == EncodeEntry(f.entries[n], n == |f.entries| - 1)
    ensures b[7 * n + 6] == EncodeEntry(f.entries[n], n == |f.entries| - 1)[6]
  {
    EncodeAt(f.entries, n);
    var code := EncodeEntries(f.entries);
    assert b[7 * n..7 * n + 7] == code[7 * n..7 * n + 7];
    assert b[7 * n + 6] == b[7 * n..7 * n + 7][6];
  }

  /** The count over the bytes is the number of digipeaters. */
  lemma {:induction false} CountFromCounts(f: Frame, b: seq<bv8>, n: nat)
    requires f.Valid() && |b| >= 70 && Encode(f) <= b && 2 + n < |f.entries|
    ensures CountFrom(b, n) == f.DigiCount()
    decreases |f.entries| - n
  {
    hide IsEnd, EncodeEntry, EncodeEntries, Encode;
    EntrySlice(f, b, 2 + n);
    EntryBits(f.entries[2 + n], 2 + n == |f.entries| - 1);
    if 2 + n < |f.entries| - 1 { CountFromCounts(f, b, n + 1); }
  }

  lemma {:induction false} DigisInCounts(f: Frame, b: seq<bv8>)
    requires f.Valid() && |b| >= 70 && Encode(f) <= b
    ensures DigisIn(b) == f.DigiCount()
    ensures CallIn(b, 0) == f.IdAt(0) && CallIn(b, 1) == f.IdAt(1)
  {
    hide IsEnd, EncodeEntry, EncodeEntries, Encode, CountFrom;
    forall i | 0 <= i < 2 ensures CallIn(b, i) == f.IdAt(i) {
      EntrySlice(f, b, i);
      EntryBits(f.entries[i], i == |f.entries| - 1);
      assert b[7 * i..7 * i + 6] == b[7 * i..7 * i + 7][..6];
    }
    EntrySlice(f, b, 1);
    EntryBits(f.entries[1], 1 == |f.entries| - 1);
    if |f.entries| > 2 { CountFromCounts(f, b, 0); }
  }

  // ----- any bytes with an end bit in place are the byte form of a frame

  lemma {:induction false} EntryRoundTrip(b: seq<bv8>)
    requires |b| == 7
    ensures DecodeEntry(b).addr.Valid() && EncodeEntry(DecodeEntry(b), IsEnd(b[6])) == b
  {
    assert b == b[..6] + [b[6]];
  }

  lemma {:induction false} EntriesRoundTrip(b: seq<bv8>, n: nat)
    requires n >= 1 && 7 * n <= |b| && forall i :: 0 <= i < n ==> IsEnd(b[7 * i + 6]) == (i == n - 1)
    ensures AddrsValid(DecodeEntries(b, n)) && EncodeEntries(DecodeEntries(b, n)) == b[..7 * n]
    decreases n
  {
    hide IsEnd, EncodeEntry, DecodeEntry;
    var es := DecodeEntries(b, n);
    EntryRoundTrip(b[..7]);
    assert b[..7][6] == b[7 * 0 + 6];
    assert es[1..] == DecodeEntries(b[7..], n - 1);
    if n > 1 {
      forall i | 0 <= i < n - 1 ensures IsEnd(b[7..][7 * i + 6]) == (i == n - 2) {
        assert b[7..][7 * i + 6] == b[7 * (i + 1) + 6];
      }
      EntriesRoundTrip(b[7..], n - 1);
      assert b[..7] + b[7..][..7 * (n - 1)] == b[..7 * n];
    } else {
      assert b[..7] + [] == b[..7];
    }
  }

  lemma {:induction false} LastFromAfter(b: seq<bv8>, n: nat)
    requires |b| >= 70 && LastFrom(b, n) >= 0
    ensures LastFrom(b, n) >= 7 * n
    decreases 10 - n
  {
    if n < 10 && !IsEnd(b[7 * n + 6]) { LastFromAfter(b, n + 1); }
  }

  lemma {:induction false} LastFromMeans(b: seq<bv8>, n: nat, i: nat)
    requires |b| >= 70 && LastFrom(b, n) >= 0 && n <= i && 7 * i <= LastFrom(b, n)
    ensures LastFrom(b, n) % 7 == 0 && LastFrom(b, n) <= 63
    ensures 7 * i + 6 < |b| && (IsEnd(b[7 * i + 6]) <==> 7 * i == LastFrom(b, n))
    decreases 10 - n
  {
    hide IsEnd;
    if !IsEnd(b[7 * n + 6]) {
      LastFromAfter(b, n + 1);
      LastFromMeans(b, n + 1, if i > n then i else n + 1);
    }
  }

  /** Bytes with an end bit from ORIGIN on are the byte form of the frame read off
      them; `b` may run past the frame's end at `len`. */
  lemma {:induction false} DecodeRoundTrip(b: seq<bv8>, len: nat)
    requires |b| >= 70 && len <= |b| && LastFrom(b, 0) >= 7 && LastFrom(b, 0) + 7 <= len
    ensures LastFrom(b, 0) % 7 == 0
    ensures var f := Decode(b[..len], LastFrom(b, 0));
            f.Valid() && Encode(f) == b[..len] && 7 * (|f.entries| - 1) == LastFrom(b, 0)
  {
    hide IsEnd, EncodeEntries, DecodeEntries, LastFrom;
    var last := LastFrom(b, 0);
    LastFromMeans(b, 0, 0);
    var n, c := last / 7 + 1, b[..len];
    assert 7 * (n - 1) == last;
    forall i | 0 <= i < n ensures IsEnd(c[7 * i + 6]) == (i == n - 1) {
      LastFromMeans(b, 0, i);
    }
    EntriesRoundTrip(c, n);
    assert c == c[..7 * n] + c[7 * n..];
  }

  lemma {:induction false} SameBytesIsSameCall(f: Frame, b: seq<bv8>, n: nat, call: seq<bv8>)
    requires f.Valid() && |b| >= 70 && Encode(f) <= b && n < |f.entries| && |call| == 7
    ensures SameBytes(b[7 * n..7 * n + 7], call) == (f.IdAt(n) == AddrOf(call).Id())
  {
    EntrySlice(f, b, n);
    EntryBits(f.entries[n], n == |f.entries| - 1);
    assert (call[6] & 0x7E) & 0x1E == call[6] & 0x1E;
  }

  lemma {:induction false} DigiMatchFinds(f: Frame, b: seq<bv8>, call: seq<bv8>, n: nat)
    requires f.Valid() && |b| >= 70 && Encode(f) <= b && 2 <= n < |f.entries| && |call| == 7
    ensures DigiMatch(b, call, n) == exists i :: n <= i < |f.entries| && f.IdAt(i) == AddrOf(call).Id()
    decreases |f.entries| - n
  {
    hide SameBytes, IsEnd, EncodeEntry, EncodeEntries, Encode, AddrOf;
    SameBytesIsSameCall(f, b, n, call);
    EntrySlice(f, b, n);
    EntryBits(f.entries[n], n == |f.entries| - 1);
    if n < |f.entries| - 1 {
      DigiMatchFinds(f, b, call, n + 1);
    }
  }

  /** flex_l2_call_in_chain decides whether the call occurs in the address
      field, with the H and end bits ignored. */
  lemma {:induction false} InChainIsMentions(f: Frame, b: seq<bv8>, call: seq<bv8>)
    requires f.Valid() && |b| >= 70 && Encode(f) <= b && |call| == 7
    ensures InChain(b, call) == f.Mentions(AddrOf(call).Id())
  {
    hide SameBytes, DigiMatch, IsEnd, EncodeEntry, EncodeEntries, Encode, AddrOf;
    SameBytesIsSameCall(f, b, 0, call);
    SameBytesIsSameCall(f, b, 1, call);
    EntrySlice(f, b, 1);
    EntryBits(f.entries[1], 1 == |f.entries| - 1);
    assert b[0..7] == b[..7];
    var c := AddrOf(call).Id();
    if |f.entries| > 2 {
      DigiMatchFinds(f, b, call, 2);
    }
    if f.Mentions(c) {
      var i :| 0 <= i < |f.entries| && f.entries[i].addr.Id() == c;
      assert f.IdAt(i) == c;
    }
  }

  lemma {:induction false} AppendShape<T>(p: seq<T>, six: seq<T>, x: T, y: T, c: seq<T>, t: seq<T>)
    requires |six| == 6
    ensures var b := p + (six + [x]) + t;
            b[..|p| + 6] + [y] + c + b[|p| + 7..] == p + (six + [y]) + c + t
  {
    var b := p + (six + [x]) + t;
    assert b[..|p| + 6] == p + six;
    assert b[|p| + 7..] == t;
  }

  lemma {:induction false} CutShape<T>(p: seq<T>, m: seq<T>, t: seq<T>)
    ensures (p + m + t)[..|p|] + (p + m + t)[|p| + |m|..] == p + t
  {
    assert (p + m + t)[..|p|] == p;
    assert (p + m + t)[|p| + |m|..] == t;
  }

  lemma {:induction false} EncodeEntryForm(e: Entry, last: bool)
    requires e.addr.Valid()
    ensures EncodeEntry(e, last) == e.addr.base + [EncodeEntry(e, last)[6]]
  {
  }

  /** Appending bytes appends one final, unrepeated entry and moves the single
      end bit to it; the bytes after the address field are kept. */
  lemma {:induction false} AppendRefines(f: Frame, call: seq<bv8>)
    requires f.Valid() && |call| == 7
    ensures |Encode(f)| == f.Length()
    ensures AppendBytes(Encode(f), 7 * (|f.entries| - 1), call) == Encode(Appended(f, AddrOf(call)))
    ensures |Encode(Appended(f, AddrOf(call)))| == f.Length() + 7
    ensures Encode(Appended(f, AddrOf(call)))[7 * |f.entries| + 7..] == f.tail
  {
    hide EncodeEntry, EncodeOpen, EncodeEntries, AppendBytes, AddrOf;
    var es := f.entries;
    var front, e := es[..|es| - 1], es[|es| - 1];
    var p := EncodeOpen(front);
    EncodeSplit(es);
    EncodeOpenLength(front);
    AppendShapeOf(p, e, call, f.tail);
    AppendedForm(f, call);
    var q := p + EncodeEntry(e, false) + EncodeEntry(Entry(AddrOf(call), false), true);
    EntryBits(e, false);
    AppendedEntryForm(call);
    assert |q| == 7 * |es| + 7;
    assert (q + f.tail)[|q|..] == f.tail;
  }

  lemma {:induction false} AppendedForm(f: Frame, call: seq<bv8>)
    requires f.Valid() && |call| == 7
    ensures var es := f.entries; var e := es[|es| - 1];
            Encode(Appended(f, AddrOf(call))) ==
            EncodeOpen(es[..|es| - 1]) + EncodeEntry(e, false) + EncodeEntry(Entry(AddrOf(call), false), true) + f.tail
  {
    var es := f.entries;
    var front, e := es[..|es| - 1], es[|es| - 1];
    var grown := es + [Entry(AddrOf(call), false)];
    EncodeSplit(grown);
    assert grown[..|grown| - 1] == front + [e];
    EncodeOpenConcat(front, [e]);
    assert EncodeOpen([e]) == EncodeEntry(e, false);
  }

  lemma {:induction false} AppendShapeOf(p: seq<bv8>, e: Entry, call: seq<bv8>, t: seq<bv8>)
    requires e.addr.Valid() && |call| == 7
    ensures |EncodeEntry(e, true)| == 7
    ensures AppendBytes(p + EncodeEntry(e, true) + t, |p|, call) ==
            p + EncodeEntry(e, false) + EncodeEntry(Entry(AddrOf(call), false), true) + t
  {
    EntryBits(e, true);
    EncodeEntryForm(e, true);
    EncodeEntryForm(e, false);
    AppendedEntryForm(call);
    var x, y := EncodeEntry(e, true)[6], EncodeEntry(e, false)[6];
    var c := EncodeEntry(Entry(AddrOf(call), false), true);
    AppendShape(p, e.addr.base, x, y, c, t);
    var b := p + EncodeEntry(e, true) + t;
    assert b[|p| + 6] == x;
    assert b[..|p| + 6] + [y] + c + b[|p| + 7..] == AppendBytes(b, |p|, call);
  }

  lemma {:induction false} AppendedEntryForm(call: seq<bv8>)
    requires |call| == 7
    ensures EncodeEntry(Entry(AddrOf(call), false), true) == call[..6] + [(call[6] & 0x7E) | 0x01]
  {
    assert (0 as bv8) | (call[6] & 0x7E) | 1 == (call[6] & 0x7E) | 0x01;
  }

  /** Removing the bytes of digipeater `i` removes entry `i`; if it was the last
      one, the end bit moves to the entry before it. */
  lemma {:induction false} RemoveRefines(f: Frame, i: nat)
    requires f.Valid() && 2 <= i < |f.entries|
    ensures |Encode(f)| == f.Length()
    ensures RemoveBytes(Encode(f), 7 * i) == Encode(Removed(f, i))
  {
    hide EncodeEntries, RemoveBytes, Removed;
    if i == |f.entries| - 1 {
      RemoveLast(f);
    } else {
      RemoveInner(f, i);
    }
  }

  lemma {:induction false} RemoveInner(f: Frame, i: nat)
    requires f.Valid() && 2 <= i < |f.entries| - 1
    ensures |Encode(f)| == f.Length()
    ensures RemoveBytes(Encode(f), 7 * i) == Encode(Removed(f, i))
  {
    var es := f.entries;
    var front, e := es[..|es| - 1], es[|es| - 1];
    assert es == front + [e];
    EncodeLength(es);
    EncodeAround(front, e, i);
    EncodeAroundCut(front, e, i);
    var p, m := EncodeOpen(front[..i]), EncodeEntry(front[i], false);
    var t := EncodeOpen(front[i + 1..]) + EncodeEntry(e, true);
    assert front[..i] == es[..i] && front[i] == es[i];
    assert AddrsValid(es[..i]);
    EncodeOpenLength(es[..i]);
    RemoveMiddleShape(p, m, t, f.tail, front[i]);
  }

  lemma {:induction false} RemoveMiddleShape(p: seq<bv8>, m: seq<bv8>, t: seq<bv8>, tail: seq<bv8>, d: Entry)
    requires d.addr.Valid() && m == EncodeEntry(d, false) && |p| >= 14
    ensures |m| == 7
    ensures RemoveBytes(p + m + t + tail, |p|) == p + t + tail
  {
    EntryBits(d, false);
    assert p + m + t + tail == p + m + (t + tail);
    CutShape(p, m, t + tail);
    assert (p + m + (t + tail))[|p| + 6] == m[6];
  }

  lemma {:induction false} EncodeAround(front: seq<Entry>, e: Entry, i: nat)
    requires i < |front|
    ensures EncodeEntries(front + [e]) ==
            EncodeOpen(front[..i]) + EncodeEntry(front[i], false) + (EncodeOpen(front[i + 1..]) + EncodeEntry(e, true))
  {
    EncodeSnoc(front, e);
    EncodeOpenAround(front, i);
    Regroup(EncodeOpen(front[..i]), EncodeEntry(front[i], false), EncodeOpen(front[i + 1..]), EncodeEntry(e, true));
  }

  lemma {:induction false} EncodeAroundCut(front: seq<Entry>, e: Entry, i: nat)
    requires i < |front|
    ensures EncodeEntries(Without(front + [e], i)) ==
            EncodeOpen(front[..i]) + (EncodeOpen(front[i + 1..]) + EncodeEntry(e, true))
  {
    WithoutFront(front, e, i);
    EncodeSnoc(Without(front, i), e);
    EncodeOpenConcat(front[..i], front[i + 1..]);
    Regroup(EncodeOpen(front[..i]), [], EncodeOpen(front[i + 1..]), EncodeEntry(e, true));
  }

  lemma {:induction false} WithoutFront(front: seq<Entry>, e: Entry, i: nat)
    requires i < |front|
    ensures Without(front + [e], i) == Without(front, i) + [e]
  {
    assert (front + [e])[..i] == front[..i];
    assert (front + [e])[i + 1..] == front[i + 1..] + [e];
  }

  lemma {:induction false} EncodeSnoc(front: seq<Entry>, e: Entry)
    ensures EncodeEntries(front + [e]) == EncodeOpen(front) + EncodeEntry(e, true)
  {
    EncodeSplit(front + [e]);
    assert (front + [e])[..|front + [e]| - 1] == front;
  }

  lemma {:induction false} EncodeOpenAround(es: seq<Entry>, i: nat)
    requires i < |es|
    ensures EncodeOpen(es) == EncodeOpen(es[..i]) + (EncodeEntry(es[i], false) + EncodeOpen(es[i + 1..]))
  {
    hide EncodeOpen, EncodeEntry;
    EncodeOpenConcat(es[..i], es[i..]);
    assert es == es[..i] + es[i..];
    EncodeOpenCons(es[i..]);
    assert es[i..][1..] == es[i + 1..];
  }

  lemma {:induction false} EncodeOpenCons(es: seq<Entry>)
    requires es != []
    ensures EncodeOpen(es) == EncodeEntry(es[0], false) + EncodeOpen(es[1..])
  {
  }

  lemma {:induction false} Regroup<T>(p: seq<T>, m: seq<T>, a: seq<T>, e: seq<T>)
    ensures (p + (m + a)) + e == p + m + (a + e)
    ensures m == [] ==> p + m == p && m + a == a
  {
  }

  lemma {:induction false} RemoveLast(f: Frame)
    requires f.Valid() && 2 < |f.entries|
    ensures |Encode(f)| == f.Length()
    ensures RemoveBytes(Encode(f), 7 * (|f.entries| - 1)) == Encode(Removed(f, |f.entries| - 1))
  {
    hide EncodeEntry, EncodeOpen, EncodeEntries, RemoveBytes;
    var es := f.entries;
    var inner, d, e := es[..|es| - 2], es[|es| - 2], es[|es| - 1];
    assert es == (inner + [d]) + [e];
    EncodeLength(es);
    EncodeLastTwo(inner, d, e);
    assert AddrsValid(inner);
    EncodeOpenLength(inner);
    assert Without(es, |es| - 1) == inner + [d];
    EncodeSnoc(inner, d);
    EntryBits(e, true);
    RemoveLastShape(EncodeOpen(inner), d, EncodeEntry(e, true), f.tail);
  }

  lemma {:induction false} EncodeLastTwo(inner: seq<Entry>, d: Entry, e: Entry)
    ensures EncodeEntries((inner + [d]) + [e]) == EncodeOpen(inner) + EncodeEntry(d, false) + EncodeEntry(e, true)
  {
    EncodeSnoc(inner + [d], e);
    EncodeOpenConcat(inner, [d]);
    assert EncodeOpen([d]) == EncodeEntry(d, false);
  }

  lemma {:induction false} RemoveLastShape(p: seq<bv8>, d: Entry, last: seq<bv8>, t: seq<bv8>)
    requires d.addr.Valid() && |p| >= 7 && |p| % 7 == 0 && |last| == 7 && IsEnd(last[6])
    ensures RemoveBytes(p + EncodeEntry(d, false) + last + t, |p| + 7) == p + EncodeEntry(d, true) + t
  {
    hide EncodeEntry, IsEnd;
    EntryBits(d, false);
    EncodeEntryForm(d, false);
    EncodeEntryForm(d, true);
    var y := EncodeEntry(d, false)[6];
    var q := p + EncodeEntry(d, false);
    CutShape(q, last, t);
    SetShape(p, d.addr.base, y, y | 0x01, t);
    EndByte(q, last, t);
    assert |q| >= 21 || |q| - 1 == 13;
  }

  lemma {:induction false} SetShape<T>(p: seq<T>, six: seq<T>, y: T, z: T, t: seq<T>)
    requires |six| == 6
    ensures var b := p + (six + [y]) + t; b[|p| + 6] == y && b[|p| + 6 := z] == p + (six + [z]) + t
  {
  }

  lemma {:induction false} EndByte(q: seq<bv8>, last: seq<bv8>, t: seq<bv8>)
    requires |last| == 7
    ensures (q + last + t)[|q| + 6] == last[6]
  {
  }

  /** Contraction undoes extension byte for byte. */
  lemma {:induction false} RemoveUndoesAppend(f: Frame, call: seq<bv8>)
    requires f.Valid() && |f.entries| < 2 + MAX_DIGIS && |call| == 7
    ensures |Encode(f)| == f.Length()
    ensures |AppendBytes(Encode(f), 7 * (|f.entries| - 1), call)| == f.Length() + 7
    ensures RemoveBytes(AppendBytes(Encode(f), 7 * (|f.entries| - 1), call), 7 * |f.entries|) == Encode(f)
  {
    AppendRefines(f, call);
    var g := Appended(f, AddrOf(call));
    assert AddrOf(call).Valid();
    RemoveRefines(g, |f.entries|);
    assert Removed(g, |f.entries|) == f;
  }

  lemma {:induction false} AppendedArray(b: seq<bv8>, r: seq<bv8>, last: nat, call: seq<bv8>)
    requires last + 7 <= |b| && |call| == 7 && |r| == |b| + 7
    requires forall i :: 0 <= i < last + 6 ==> r[i] == b[i]
    requires r[last + 6] == b[last + 6] & 0xFE
    requires forall i :: 0 <= i < 6 ==> r[last + 7 + i] == call[i]
    requires r[last + 13] == (call[6] & 0x7E) | 0x01
    requires forall i :: last + 7 <= i < |b| ==> r[i + 7] == b[i]
    ensures r == AppendBytes(b, last, call)
  {
    assert r[..last + 6] == b[..last + 6];
    assert r[last + 7..last + 13] == call[..6];
    assert r[last + 14..] == b[last + 7..] by {
      var rt, bt := r[last + 14..], b[last + 7..];
      forall i | 0 <= i < |bt| ensures rt[i] == bt[i] {
        assert r[(last + 7 + i) + 7] == b[last + 7 + i];
      }
    }
    assert r == r[..last + 6] + [r[last + 6]] + r[last + 7..last + 13] + [r[last + 13]] + r[last + 14..];
  }

  lemma {:induction false} RemovedArray(b: seq<bv8>, r: seq<bv8>, off: nat)
    requires 14 <= off && off + 7 <= |b| && |r| == |b| - 7
    requires forall i :: 0 <= i < off - 1 && i != 13 ==> r[i] == b[i]
    requires IsEnd(b[off + 6]) && off >= 21 ==> r[off - 1] == b[off - 1] | 0x01 && r[13] == b[13]
    requires IsEnd(b[off + 6]) && off < 21 ==> r[13] == b[13] | 0x01 && (off != 14 ==> r[off - 1] == b[off - 1])
    requires !IsEnd(b[off + 6]) ==> r[off - 1] == b[off - 1] && r[13] == b[13]
    requires forall i :: off + 7 <= i < |b| ==> r[i - 7] == b[i]
    ensures r == RemoveBytes(b, off)
  {
    var s := RemoveBytes(b, off);
    forall i | off <= i < |r| ensures r[i] == s[i] {
      assert r[(i + 7) - 7] == b[i + 7];
    }
    assert forall i :: 0 <= i < |r| ==> r[i] == s[i];
  }

  // ----- the buffer the C code edits in place

  /** The message buffer from DEST onward; `len` is LENGTH - MSGHDDRLEN. */
  class FrameBuffer {
    const data: array<bv8>
    var len: nat

    ghost predicate Valid()
      reads this
    {
      MAX_FRAME <= data.Length && len <= data.Length
    }

    ghost function Bytes(): seq<bv8>
      requires Valid()
      reads this, data
    {
      data[..len]
    }

    constructor (capacity: nat)
      requires MAX_FRAME <= capacity
      ensures Valid() && fresh(data) && data.Length == capacity && len == 0
    {
      data := new bv8[capacity];
      len := 0;
    }

    /** The live bytes are the byte form of `f`. */
    ghost predicate Holds(f: Frame)
      reads this, data
    {
      Valid() && f.Valid() && Bytes() == Encode(f)
    }

    /** Call, H bit and end bit of entry `i`. */
    method EntryAt(ghost f: Frame, i: nat) returns (c: Call, h: bool, last: bool)
      requires Holds(f) && i < |f.entries|
      ensures c == f.IdAt(i) && h == f.entries[i].h && last == (i == |f.entries| - 1)
    {
      ghost var b := data[..];
      assert Encode(f) <= b;
      EntrySlice(f, b, i);
      EntryBits(f.entries[i], i == |f.entries| - 1);
      assert data[7 * i..7 * i + 6] == b[7 * i..7 * i + 7][..6];
      return Call(data[7 * i..7 * i + 6], data[7 * i + 6] & 0x1E), data[7 * i + 6] & 0x80 != 0, IsEnd(data[7 * i + 6]);
    }

    /** The number of digipeaters, on any bytes. */
    method CountDigis() returns (n: nat)
      requires Valid()
      ensures n == DigisIn(data[..])
    {
      if IsEnd(data[13]) {
        return 0;
      }
      n := 0;
      while n < MAX_DIGIS
        invariant n <= MAX_DIGIS && CountFrom(data[..], n) == CountFrom(data[..], 0)
      {
        if IsEnd(data[7 * (2 + n) + 6]) {
          return n + 1;
        }
        n := n + 1;
      }
    }

    /** The call in entry `i`, on any bytes. */
    method CallAt(i: nat) returns (c: Call)
      requires Valid() && i < 2 + MAX_DIGIS
      ensures c == CallIn(data[..], i)
    {
      assert data[7 * i..7 * i + 6] == data[..][7 * i..7 * i + 6];
      return Call(data[7 * i..7 * i + 6], data[7 * i + 6] & 0x1E);
    }

    method AddrLast() returns (off: int)
      requires Valid()
      ensures off == LastFrom(data[..], 0)
      ensures off == -1 || (0 <= off <= 63 && off % 7 == 0)
    {
      var n := 0;
      while n < 2 + MAX_DIGIS
        invariant 0 <= n <= 2 + MAX_DIGIS
        invariant LastFrom(data[..], n) == LastFrom(data[..], 0)
      {
        if IsEnd(data[7 * n + 6]) {
          return 7 * n;
        }
        n := n + 1;
      }
      return -1;
    }

    method CallInChain(call: seq<bv8>) returns (found: bool)
      requires Valid() && |call| == 7
      ensures found == InChain(data[..], call)
    {
      ghost var b := data[..];
      assert data[..7] == b[..7] && data[7..14] == b[7..14];
      if SameBytes(data[..7], call) || SameBytes(data[7..14], call) {
        return true;
      }
      if IsEnd(data[13]) {
        return false;
      }
      var n := 2;
      while n < 2 + MAX_DIGIS
        invariant 2 <= n <= 2 + MAX_DIGIS
        invariant DigiMatch(b, call, n) == DigiMatch(b, call, 2)
      {
        assert data[7 * n..7 * n + 7] == b[7 * n..7 * n + 7];
        if SameBytes(data[7 * n..7 * n + 7], call) {
          return true;
        }
        if IsEnd(data[7 * n + 6]) {
          return false;
        }
        n := n + 1;
      }
      return false;
    }

    method AppendDigi(call: seq<bv8>) returns (ok: bool)
      requires Valid() && |call| == 7
      modifies this`len, data
      ensures Valid()
      ensures ok == (0 <= old(LastFrom(data[..], 0)) && old(LastFrom(data[..], 0)) + 7 <= old(len) &&
              old(len) + 7 <= MAX_FRAME)
      ensures ok ==> Bytes() == AppendBytes(old(Bytes()), old(LastFrom(data[..], 0)), call)
      ensures !ok ==> len == old(len) && data[..] == old(data[..])
    {
      hide AppendBytes, LastFrom, IsEnd;
      var last := AddrLast();
      if last < 0 {
        return false;
      }
      var addrLen := last + 7;
      if len < addrLen || len + 7 > MAX_FRAME {
        return false;
      }
      forall j | addrLen + 7 <= j < len + 7 {
        data[j] := data[j - 7];
      }
      data[last + 6] := data[last + 6] & 0xFE;
      forall i | 0 <= i < 6 {
        data[addrLen + i] := call[i];
      }
      data[addrLen + 6] := (call[6] & 0x7E) | 0x01;
      len := len + 7;
      AppendedArray(old(Bytes()), Bytes(), last, call);
      return true;
    }

    method RemoveDigi(off: int) returns (ok: bool)
      requires Valid()
      modifies this`len, data
      ensures Valid()
      ensures ok == (14 <= off && off + 7 <= old(len))
      ensures ok ==> Bytes() == RemoveBytes(old(Bytes()), off)
      ensures !ok ==> len == old(len) && data[..] == old(data[..])
    {
      if off < 14 || off + 7 > len {
        return false;
      }
      var wasLast := IsEnd(data[off + 6]);
      forall j | off <= j < len - 7 {
        data[j] := data[j + 7];
      }
      len := len - 7;
      if wasLast && off >= 21 {
        data[off - 1] := data[off - 1] | 0x01;
      } else if wasLast {
        data[13] := data[13] | 0x01;
      }
      RemovedArray(old(Bytes()), Bytes(), off);
      return true;
    }
  }
}
