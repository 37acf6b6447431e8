/** Time-ordered identifiers: UUID version 7, section 5.7 of RFC 9562. Bytes are numbers below 256 and the
    source's masks and shifts are written as arithmetic. */
module Uuid {
  import opened Basics
  import Text
  import Workflow

  /* ---- 48-bit big-endian time ---- */

  function Pow256(n: nat): (r: nat)
    ensures r > 0
  {
    if n == 0 then 1 else 256 * Pow256(n - 1)
  }

  /** The last `n` base-256 digits, most significant first. */
  function Stamp(ms: nat, n: nat): (r: seq<Byte>)
    ensures |r| == n
  {
    if n == 0 then [] else Stamp(ms / 256, n - 1) + [ms % 256]
  }

  function Value(bytes: seq<Byte>): nat {
    if bytes == [] then 0 else Value(bytes[..|bytes| - 1]) * 256 + bytes[|bytes| - 1]
  }

  lemma {:induction false} StampRoundTrip(ms: nat, n: nat)
    requires ms < Pow256(n)
    ensures Value(Stamp(ms, n)) == ms
  {
    if n == 0 {
    } else {
      StampRoundTrip(ms / 256, n - 1);
      assert Stamp(ms, n)[..n - 1] == Stamp(ms / 256, n - 1);
    }
  }

  /** A smaller number differs first at a smaller digit. */
  lemma {:induction false} StampOrder(a: nat, b: nat, n: nat) returns (k: nat)
    requires a < b < Pow256(n)
    ensures k < n && Stamp(a, n)[..k] == Stamp(b, n)[..k] && Stamp(a, n)[k] < Stamp(b, n)[k]
  {
    var high, low := Stamp(a, n)[..n - 1], Stamp(b, n)[..n - 1];
    assert high == Stamp(a / 256, n - 1) && low == Stamp(b / 256, n - 1);
    if a / 256 == b / 256 {
      k := n - 1;
    } else {
      k := StampOrder(a / 256, b / 256, n - 1);
      assert Stamp(a, n)[..k] == high[..k] && Stamp(b, n)[..k] == low[..k];
    }
  }

  /* ---- the sixteen bytes ---- */

  /** Random bytes with the time, version 7 and the RFC variant written over them. */
  function Stamped(random: seq<Byte>, ms: nat): (r: seq<Byte>)
    requires |random| == 16
    ensures |r| == 16
  {
    Stamp(ms, 6) + [random[6] % 16 + 0x70, random[7], random[8] % 64 + 0x80] + random[9..]
  }

  /* ---- the text ---- */

  function HexDigit(d: int): (c: char)
    requires 0 <= d < 16
    ensures '0' <= c <= '9' || 'a' <= c <= 'f'
  {
    if d < 10 then '0' + d as char else 'a' + (d - 10) as char
  }

  function HexValue(c: char): Option<int> {
    if '0' <= c <= '9' then Some(c as int - '0' as int)
    else if 'a' <= c <= 'f' then Some(c as int - 'a' as int + 10)
    else None
  }

  predicate IsDash(i: int) {
    i == 8 || i == 13 || i == 18 || i == 23
  }

  function Dashes(i: int): nat {
    if i <= 8 then 0 else if i <= 13 then 1 else if i <= 18 then 2 else if i <= 23 then 3 else 4
  }

  /** Where the two digits of byte `k` start. */
  function Offset(k: int): int {
    2 * k + if k < 4 then 0 else if k < 6 then 1 else if k < 8 then 2 else if k < 10 then 3 else 4
  }

  function CharAt(bytes: seq<Byte>, i: int): char
    requires |bytes| == 16 && 0 <= i < 36
  {
    if IsDash(i) then '-'
    else
      var nibble := i - Dashes(i);
      HexDigit(if nibble % 2 == 0 then bytes[nibble / 2] / 16 else bytes[nibble / 2] % 16)
  }

  function Layout(bytes: seq<Byte>): (r: string)
    requires |bytes| == 16
    ensures |r| == 36
    ensures forall i :: 0 <= i < 36 ==> r[i] == CharAt(bytes, i)
  {
    seq(36, i requires 0 <= i < 36 => CharAt(bytes, i))
  }

  function ByteAt(text: string, k: int): Option<int>
    requires |text| == 36 && 0 <= k < 16
  {
    var high, low := HexValue(text[Offset(k)]), HexValue(text[Offset(k) + 1]);
    if high.Some? && low.Some? then Some(high.value * 16 + low.value) else None
  }

  /** Reading the text back, with no reference to how it was written. */
  ghost predicate Reads(text: string, bytes: seq<Byte>) {
    && |text| == 36 && |bytes| == 16
    && (forall i :: 0 <= i < 36 && IsDash(i) ==> text[i] == '-')
    && (forall k :: 0 <= k < 16 ==> ByteAt(text, k) == Some(bytes[k]))
  }

  lemma DigitsAt(bytes: seq<Byte>, k: int)
    requires |bytes| == 16 && 0 <= k < 16
    ensures CharAt(bytes, Offset(k)) == HexDigit(bytes[k] / 16) && CharAt(bytes, Offset(k) + 1) == HexDigit(bytes[k] % 16)
  {
  }

  lemma LayoutRoundTrip(bytes: seq<Byte>)
    requires |bytes| == 16
    ensures Reads(Layout(bytes), bytes)
  {
    forall k | 0 <= k < 16 ensures ByteAt(Layout(bytes), k) == Some(bytes[k]) {
      ByteReads(bytes, k);
    }
  }

  lemma ByteReads(bytes: seq<Byte>, k: int)
    requires |bytes| == 16 && 0 <= k < 16
    ensures ByteAt(Layout(bytes), k) == Some(bytes[k])
  {
    DigitsAt(bytes, k);
    DigitReads(bytes[k] / 16);
    DigitReads(bytes[k] % 16);
    hide CharAt, HexDigit, HexValue;
  }

  lemma DigitReads(d: int)
    requires 0 <= d < 16
    ensures HexValue(HexDigit(d)) == Some(d)
  {
  }

  lemma DigitOrder(d: int, e: int)
    requires 0 <= d < e < 16
    ensures HexDigit(d) < HexDigit(e)
  {
  }

  /** A text reads as one sequence of bytes only. */
  lemma ReadsOnce(text: string, a: seq<Byte>, b: seq<Byte>)
    requires Reads(text, a) && Reads(text, b)
    ensures a == b
  {
    forall k | 0 <= k < 16 ensures a[k] == b[k] {
      assert ByteAt(text, k) == Some(a[k]);
    }
  }

  /* ---- the method ---- */

  /** The digits of bytes from..to stand where they belong. */
  ghost predicate Written(text: string, bytes: seq<Byte>, from: int, to: int)
    requires |text| == 36 && |bytes| == 16 && 0 <= from <= to <= 16
  {
    forall k :: from <= k < to ==> text[Offset(k)] == HexDigit(bytes[k] / 16) && text[Offset(k) + 1] == HexDigit(bytes[k] % 16)
  }

  lemma AllWritten(text: string, bytes: seq<Byte>)
    requires |text| == 36 && |bytes| == 16 && Written(text, bytes, 0, 16)
    requires forall i :: 0 <= i < 36 && IsDash(i) ==> text[i] == '-'
    ensures text == Layout(bytes)
  {
    forall i | 0 <= i < 36 ensures text[i] == CharAt(bytes, i) {
      if !IsDash(i) {
        var k := (i - Dashes(i)) / 2;
        assert i == Offset(k) || i == Offset(k) + 1;
        DigitsAt(bytes, k);
      }
    }
  }

  /** hex.Encode of b[from..to] into the text at `at`. */
  method HexInto(out: array<char>, at: nat, b: array<Byte>, from: nat, to: nat)
    requires out.Length == 36 && b.Length == 16 && from <= to <= 16
    requires forall k :: from <= k < to ==> Offset(k) == at + 2 * (k - from)
    requires Written(out[..], b[..], 0, from)
    modifies out
    ensures Written(out[..], b[..], 0, to)
    ensures forall i :: 0 <= i < 36 && IsDash(i) ==> out[i] == old(out[i])
  {
    var k := from;
    while k < to
      invariant from <= k <= to
      invariant Written(out[..], b[..], 0, k)
      invariant forall i :: 0 <= i < 36 && IsDash(i) ==> out[i] == old(out[i])
    {
      assert Offset(k) == at + 2 * (k - from);
      ghost var before := out[..];
      out[at + 2 * (k - from)] := HexDigit(b[k] / 16);
      out[at + 2 * (k - from) + 1] := HexDigit(b[k] % 16);
      WrittenNext(before, out[..], b[..], k);
      k := k + 1;
    }
  }

  lemma WrittenNext(before: string, text: string, bytes: seq<Byte>, k: int)
    requires |before| == |text| == 36 && |bytes| == 16 && 0 <= k < 16 && Written(before, bytes, 0, k)
    requires text == before[Offset(k) := HexDigit(bytes[k] / 16)][Offset(k) + 1 := HexDigit(bytes[k] % 16)]
    ensures Written(text, bytes, 0, k + 1)
  {
    hide HexDigit;
    forall j | 0 <= j < k ensures text[Offset(j)] == before[Offset(j)] && text[Offset(j) + 1] == before[Offset(j) + 1] {
      assert Offset(j) + 1 < Offset(k);
    }
  }

  method StampInto(b: array<Byte>, ms: nat)
    requires b.Length == 16
    modifies b
    ensures b[..] == Stamp(ms, 6) + old(b[6..])
  {
    b[0], b[1], b[2] := ms / 0x100_0000_0000 % 256, ms / 0x1_0000_0000 % 256, ms / 0x100_0000 % 256;
    b[3], b[4], b[5] := ms / 0x1_0000 % 256, ms / 0x100 % 256, ms % 256;
    StampDigits(ms);
    hide Stamp;
    assert b[..6] == Stamp(ms, 6) && b[6..] == old(b[6..]);
  }

  method Fill(random: seq<Byte>, ms: nat) returns (b: array<Byte>)
    requires |random| == 16
    ensures fresh(b) && b[..] == Stamped(random, ms)
  {
    hide Stamp;
    b := new Byte[16](i requires 0 <= i < 16 => random[i]);
    assert b[..] == random;
    StampInto(b, ms);
    b[6] := b[6] % 16 + 0x70;
    b[8] := b[8] % 64 + 0x80;
  }

  method Encode(b: array<Byte>) returns (text: string)
    requires b.Length == 16
    ensures text == Layout(b[..])
  {
    hide Written, Layout;
    var out := new char[36](_ => '-');
    NothingWritten(out[..], b[..]);
    HexInto(out, 0, b, 0, 4);
    HexInto(out, 9, b, 4, 6);
    HexInto(out, 14, b, 6, 8);
    HexInto(out, 19, b, 8, 10);
    HexInto(out, 24, b, 10, 16);
    text := out[..];
    AllWritten(text, b[..]);
  }

  lemma NothingWritten(text: string, bytes: seq<Byte>)
    requires |text| == 36 && |bytes| == 16
    ensures Written(text, bytes, 0, 0)
  {
  }

  /** newUUID */
  method NewUuid(random: seq<Byte>, ms: nat) returns (text: string)
    requires |random| == 16
    ensures text == Layout(Stamped(random, ms))
  {
    var b := Fill(random, ms);
    text := Encode(b);
  }

  lemma StampDigits(ms: nat)
    ensures Stamp(ms, 6) == [ms / 0x100_0000_0000 % 256, ms / 0x1_0000_0000 % 256, ms / 0x100_0000 % 256,
                             ms / 0x1_0000 % 256, ms / 0x100 % 256, ms % 256]
  {
    assert Stamp(ms / 0x1_0000_0000, 2) == [ms / 0x100_0000_0000 % 256, ms / 0x1_0000_0000 % 256];
    assert Stamp(ms / 0x1_0000, 4) == Stamp(ms / 0x1_0000_0000, 2) + [ms / 0x100_0000 % 256, ms / 0x1_0000 % 256];
  }

  /* ---- what the identifiers promise ---- */

  /** The text decodes, in one way only, to the time, version 7, the RFC variant and the remaining random bits. */
  lemma DecodesBack(random: seq<Byte>, ms: nat, bytes: seq<Byte>)
    requires |random| == 16 && ms < Pow256(6) && Reads(Layout(Stamped(random, ms)), bytes)
    ensures Value(bytes[..6]) == ms && bytes[6] / 16 == 7 && bytes[8] / 64 == 2
    ensures bytes[6] % 16 == random[6] % 16 && bytes[7] == random[7] && bytes[8] % 64 == random[8] % 64 && bytes[9..] == random[9..]
  {
    hide Reads, Layout, Pow256;
    LayoutRoundTrip(Stamped(random, ms));
    ReadsOnce(Layout(Stamped(random, ms)), bytes, Stamped(random, ms));
    StampRoundTrip(ms, 6);
    hide Stamp, Value;
    assert bytes[..6] == Stamp(ms, 6);
  }

  /** A later millisecond gives a greater text, whatever the random bytes. */
  lemma LaterIsGreater(r1: seq<Byte>, ms1: nat, r2: seq<Byte>, ms2: nat)
    requires |r1| == |r2| == 16 && ms1 < ms2 < Pow256(6)
    ensures Text.Less(Layout(Stamped(r1, ms1)), Layout(Stamped(r2, ms2)))
  {
    var k := StampOrder(ms1, ms2, 6);
    var a, b := Stamped(r1, ms1), Stamped(r2, ms2);
    assert forall i :: 0 <= i < k ==> a[i] == Stamp(ms1, 6)[..k][i] && b[i] == Stamp(ms2, 6)[..k][i];
    assert a[..k] == b[..k] && a[k] < b[k];
    FirstDifference(a, b, k);
  }

  lemma FirstDifference(a: seq<Byte>, b: seq<Byte>, k: nat)
    requires |a| == |b| == 16 && k < 6 && a[..k] == b[..k] && a[k] < b[k]
    ensures Text.Less(Layout(a), Layout(b))
  {
    SamePrefix(a, b, k);
    DigitsAt(a, k);
    DigitsAt(b, k);
    hide CharAt, HexDigit;
    var s, t := Layout(a), Layout(b);
    if a[k] / 16 < b[k] / 16 {
      DigitOrder(a[k] / 16, b[k] / 16);
      Text.LessAtFirstDifference(s, t, Offset(k));
    } else {
      assert a[k] / 16 == b[k] / 16;
      DigitOrder(a[k] % 16, b[k] % 16);
      assert s[..Offset(k) + 1] == s[..Offset(k)] + [s[Offset(k)]] && t[..Offset(k) + 1] == t[..Offset(k)] + [t[Offset(k)]];
      Text.LessAtFirstDifference(s, t, Offset(k) + 1);
    }
  }

  lemma SamePrefix(a: seq<Byte>, b: seq<Byte>, k: nat)
    requires |a| == |b| == 16 && k < 6 && a[..k] == b[..k]
    ensures Layout(a)[..Offset(k)] == Layout(b)[..Offset(k)]
  {
    forall i | 0 <= i < Offset(k) ensures CharAt(a, i) == CharAt(b, i) {
      if !IsDash(i) {
        assert a[(i - Dashes(i)) / 2] == a[..k][(i - Dashes(i)) / 2];
      }
    }
  }

  /** Generated identifiers hold no colon, which is what keeps idempotency keys apart. */
  lemma NoColon(bytes: seq<Byte>)
    requires |bytes| == 16
    ensures Workflow.IsId(Layout(bytes))
  {
    forall i | 0 <= i < 36 ensures Layout(bytes)[i] != ':' {
    }
  }
}
