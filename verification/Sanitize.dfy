/** Making an error message storable: valid UTF-8 (section 3 of RFC 3629), no NUL, bounded. */
module Sanitize {
  import opened Basics

  const MAX_ERROR: nat := 4000

  /** U+FFFD. */
  const REPLACEMENT: seq<Byte> := [0xEF, 0xBF, 0xBD]

  predicate Tail(b: Byte) {
    0x80 <= b <= 0xBF
  }

  /** utf8.RuneStart */
  predicate RuneStart(b: Byte) {
    !Tail(b)
  }

  /** How many bytes a character that starts with `b` has; 0 when none does. */
  function Width(b: Byte): (n: nat)
    ensures n <= 4
  {
    if b <= 0x7F then 1
    else if 0xC2 <= b <= 0xDF then 2
    else if 0xE0 <= b <= 0xEF then 3
    else if 0xF0 <= b <= 0xF4 then 4
    else 0
  }

  /** The second byte rules out overlong forms, surrogates and values above U+10FFFF. */
  predicate SecondOk(b: Byte, c: Byte) {
    && Tail(c)
    && (b == 0xE0 ==> c >= 0xA0) && (b == 0xED ==> c <= 0x9F)
    && (b == 0xF0 ==> c >= 0x90) && (b == 0xF4 ==> c <= 0x8F)
  }

  /** The length of the character a string starts with, 0 when it starts with none. */
  function RuneLen(s: seq<Byte>): (n: nat)
    ensures n <= |s| && n <= 4
  {
    if s == [] then 0
    else
      var n := Width(s[0]);
      if n <= |s| && (n >= 2 ==> SecondOk(s[0], s[1])) && (n >= 3 ==> Tail(s[2])) && (n >= 4 ==> Tail(s[3])) then n else 0
  }

  predicate ValidUtf8(s: seq<Byte>) {
    s == [] || (RuneLen(s) > 0 && ValidUtf8(s[RuneLen(s)..]))
  }

  /* ---- what counts as a character ---- */

  /** A code point that is not a surrogate. */
  predicate Scalar(c: int) {
    0 <= c <= 0x10FFFF && !(0xD800 <= c <= 0xDFFF)
  }

  function EncodeRune(c: int): seq<Byte>
    requires Scalar(c)
  {
    if c < 0x80 then [c]
    else if c < 0x800 then [0xC0 + c / 64, 0x80 + c % 64]
    else if c < 0x10000 then [0xE0 + c / 4096, 0x80 + c / 64 % 64, 0x80 + c % 64]
    else [0xF0 + c / 262144, 0x80 + c / 4096 % 64, 0x80 + c / 64 % 64, 0x80 + c % 64]
  }

  lemma EncodeIsRune(c: int, s: seq<Byte>)
    requires Scalar(c) && EncodeRune(c) <= s
    ensures RuneLen(s) == |EncodeRune(c)| > 0
  {
    assert forall i :: 0 <= i < |EncodeRune(c)| ==> s[i] == EncodeRune(c)[i];
  }

  /** The code points of two, three and four bytes. */
  function OfTwo(a: int, b: int): int {
    (a - 0xC0) * 64 + (b - 0x80)
  }

  function OfThree(a: int, b: int, d: int): int {
    (a - 0xE0) * 4096 + (b - 0x80) * 64 + (d - 0x80)
  }

  function OfFour(a: int, b: int, d: int, e: int): int {
    (a - 0xF0) * 262144 + (b - 0x80) * 4096 + (d - 0x80) * 64 + (e - 0x80)
  }

  lemma RuneDecodes(s: seq<Byte>) returns (c: int)
    requires RuneLen(s) > 0
    ensures Scalar(c) && EncodeRune(c) == s[..RuneLen(s)]
  {
    var n := RuneLen(s);
    if n == 1 {
      c := s[0];
    } else if n == 2 {
      c := OfTwo(s[0], s[1]);
    } else if n == 3 {
      c := OfThree(s[0], s[1], s[2]);
      SplitsThree(s[0], s[1], s[2]);
    } else {
      c := OfFour(s[0], s[1], s[2], s[3]);
      SplitsFour(s[0], s[1], s[2], s[3]);
    }
  }

  lemma SplitsThree(a: int, b: int, d: int)
    requires 0x80 <= b <= 0xBF && 0x80 <= d <= 0xBF
    ensures var c := OfThree(a, b, d); c / 4096 == a - 0xE0 && c / 64 % 64 == b - 0x80 && c % 64 == d - 0x80
  {
    assert OfThree(a, b, d) / 64 == (a - 0xE0) * 64 + (b - 0x80);
  }

  lemma SplitsFour(a: int, b: int, d: int, e: int)
    requires 0x80 <= b <= 0xBF && 0x80 <= d <= 0xBF && 0x80 <= e <= 0xBF
    ensures var c := OfFour(a, b, d, e);
            c / 262144 == a - 0xF0 && c / 4096 % 64 == b - 0x80 && c / 64 % 64 == d - 0x80 && c % 64 == e - 0x80
  {
    assert OfFour(a, b, d, e) / 64 == (a - 0xF0) * 4096 + (b - 0x80) * 64 + (d - 0x80);
    assert OfFour(a, b, d, e) / 4096 == (a - 0xF0) * 64 + (b - 0x80);
  }

  /** Text starts with a character exactly when it starts with the encoding of a code point, and then of one only. */
  lemma RuneIsEncoding(s: seq<Byte>)
    ensures RuneLen(s) > 0 <==> exists c :: Scalar(c) && EncodeRune(c) <= s
    ensures forall c :: Scalar(c) && EncodeRune(c) <= s ==> |EncodeRune(c)| == RuneLen(s)
  {
    if RuneLen(s) > 0 {
      var c := RuneDecodes(s);
      assert EncodeRune(c) <= s;
    }
    forall c | Scalar(c) && EncodeRune(c) <= s ensures RuneLen(s) == |EncodeRune(c)| > 0 {
      EncodeIsRune(c, s);
    }
  }

  /* ---- cleaning ---- */

  /** Each run of invalid bytes becomes one replacement; `inRun` says that the previous byte was invalid. */
  function Cleaned(s: seq<Byte>, inRun: bool): seq<Byte> {
    if s == [] then []
    else if RuneLen(s) == 0 then (if inRun then [] else REPLACEMENT) + Cleaned(s[1..], true)
    else s[..RuneLen(s)] + Cleaned(s[RuneLen(s)..], false)
  }

  /** A character in front of a valid string. */
  lemma Prepend(r: seq<Byte>, s: seq<Byte>)
    requires 0 < |r| == RuneLen(r) && ValidUtf8(s)
    ensures ValidUtf8(r + s)
  {
    assert RuneLen(r + s) == |r|;
    assert (r + s)[|r|..] == s;
  }

  lemma {:induction false} CleanedIsValid(s: seq<Byte>, inRun: bool)
    ensures ValidUtf8(Cleaned(s, inRun))
    decreases |s|
  {
    if s == [] {
    } else if RuneLen(s) == 0 {
      CleanedIsValid(s[1..], true);
      if inRun {
        assert [] + Cleaned(s[1..], true) == Cleaned(s[1..], true);
      } else {
        Prepend(REPLACEMENT, Cleaned(s[1..], true));
      }
    } else {
      var n := RuneLen(s);
      CleanedIsValid(s[n..], false);
      assert RuneLen(s[..n]) == n;
      Prepend(s[..n], Cleaned(s[n..], false));
    }
  }

  /** Cleaning changes a string exactly when it was not valid. */
  lemma {:induction false} CleanedKeepsValid(s: seq<Byte>)
    ensures Cleaned(s, false) == s <==> ValidUtf8(s)
    decreases |s|
  {
    if Cleaned(s, false) == s {
      CleanedIsValid(s, false);
    }
    if ValidUtf8(s) && s != [] {
      CleanedKeepsValid(s[RuneLen(s)..]);
      assert s == s[..RuneLen(s)] + s[RuneLen(s)..];
    }
  }

  lemma RuneLenOfPrefix(a: seq<Byte>, b: seq<Byte>)
    requires RuneLen(a) > 0
    ensures RuneLen(a + b) == RuneLen(a)
  {
  }

  /** Valid text in front stays as it is. */
  lemma {:induction false} CleanedAfterValid(a: seq<Byte>, b: seq<Byte>)
    requires ValidUtf8(a)
    ensures Cleaned(a + b, false) == a + Cleaned(b, false)
    decreases |a|
  {
    hide RuneLen;
    if a == [] {
      assert a + b == b;
    } else {
      var n := RuneLen(a);
      RuneLenOfPrefix(a, b);
      assert (a + b)[..n] == a[..n] && (a + b)[n..] == a[n..] + b;
      CleanedAfterValid(a[n..], b);
      assert a[..n] + (a[n..] + Cleaned(b, false)) == a + Cleaned(b, false);
    }
  }

  /** No character starts anywhere in `x` when `b` follows it. */
  ghost predicate InvalidRun(x: seq<Byte>, b: seq<Byte>) {
    forall k :: 0 <= k < |x| ==> RuneLen((x + b)[k..]) == 0
  }

  lemma {:induction false} RestOfRun(x: seq<Byte>, b: seq<Byte>)
    requires InvalidRun(x, b) && (b == [] || RuneLen(b) > 0)
    ensures Cleaned(x + b, true) == Cleaned(b, false)
  {
    hide RuneLen;
    if x == [] {
      assert x + b == b;
    } else {
      TailOfRun(x, b);
      RestOfRun(x[1..], b);
      assert (x + b)[0..] == x + b && (x + b)[1..] == x[1..] + b;
      assert [] + Cleaned(x[1..] + b, true) == Cleaned(x[1..] + b, true);
    }
  }

  lemma TailOfRun(x: seq<Byte>, b: seq<Byte>)
    requires InvalidRun(x, b) && x != []
    ensures InvalidRun(x[1..], b)
  {
    hide RuneLen;
    forall k | 0 <= k < |x[1..]| ensures RuneLen((x[1..] + b)[k..]) == 0 {
      assert (x[1..] + b)[k..] == (x + b)[k + 1..];
    }
  }

  /** A run of invalid bytes, up to the next character or the end, becomes one U+FFFD. */
  lemma CleanedRun(x: seq<Byte>, b: seq<Byte>)
    requires x != [] && InvalidRun(x, b) && (b == [] || RuneLen(b) > 0)
    ensures Cleaned(x + b, false) == [0xEF, 0xBF, 0xBD] + Cleaned(b, false)
  {
    assert (x + b)[0..] == x + b && (x + b)[1..] == x[1..] + b;
    TailOfRun(x, b);
    RestOfRun(x[1..], b);
  }

  /** What one round of the loop writes. */
  function Piece(s: seq<Byte>, i: nat, inRun: bool): seq<Byte>
    requires i < |s|
  {
    var n := RuneLen(s[i..]);
    if n > 0 then s[i..i + n] else if inRun then [] else REPLACEMENT
  }

  lemma Regroup(a: seq<Byte>, b: seq<Byte>, c: seq<Byte>)
    ensures a + (b + c) == a + b + c
  {
  }

  lemma OneRound(s: seq<Byte>, i: nat, inRun: bool, r: seq<Byte>, next: nat, nextInRun: bool)
    requires i < |s| && next == (if RuneLen(s[i..]) == 0 then i + 1 else i + RuneLen(s[i..])) && nextInRun == (RuneLen(s[i..]) == 0)
    ensures r + Cleaned(s[i..], inRun) == (r + Piece(s, i, inRun)) + Cleaned(s[next..], nextInRun)
  {
    hide RuneLen;
    var rest, n := s[i..], RuneLen(s[i..]);
    assert rest[1..] == s[i + 1..] && rest[n..] == s[i + n..] && rest[..n] == s[i..i + n];
    assert Cleaned(rest, inRun) == Piece(s, i, inRun) + Cleaned(s[next..], nextInRun);
    hide Cleaned, Piece;
    Regroup(r, Piece(s, i, inRun), Cleaned(s[next..], nextInRun));
  }

  /** The loop of strings.ToValidUTF8. */
  method ToValid(s: seq<Byte>) returns (r: seq<Byte>)
    ensures r == Cleaned(s, false)
  {
    r := [];
    var i, inRun := 0, false;
    assert s[0..] == s && [] + Cleaned(s, false) == Cleaned(s, false);
    while i < |s|
      invariant 0 <= i <= |s|
      invariant r + Cleaned(s[i..], inRun) == Cleaned(s, false)
    {
      hide Cleaned, RuneLen, Piece;
      var n := RuneLen(s[i..]);
      var next := if n == 0 then i + 1 else i + n;
      OneRound(s, i, inRun, r, next, n == 0);
      r := r + Piece(s, i, inRun);
      i, inRun := next, n == 0;
    }
    assert s[i..] == [];
  }

  function WithoutNul(s: seq<Byte>): seq<Byte> {
    if s == [] then [] else (if s[0] == 0 then REPLACEMENT else [s[0]]) + WithoutNul(s[1..])
  }

  lemma {:induction false} NoNul(s: seq<Byte>)
    ensures 0 !in WithoutNul(s)
  {
    if s == [] {
    } else {
      NoNul(s[1..]);
    }
  }

  lemma {:induction false} WithoutNulSplits(a: seq<Byte>, b: seq<Byte>)
    ensures WithoutNul(a + b) == WithoutNul(a) + WithoutNul(b)
  {
    if a == [] {
      assert a + b == b;
    } else {
      WithoutNulSplits(a[1..], b);
      assert (a + b)[1..] == a[1..] + b;
      var head := if a[0] == 0 then REPLACEMENT else [a[0]];
      Regroup(head, WithoutNul(a[1..]), WithoutNul(b));
    }
  }

  /** Each NUL becomes one U+FFFD. */
  lemma NulReplaced(a: seq<Byte>, b: seq<Byte>)
    requires 0 !in a
    ensures WithoutNul(a + [0] + b) == a + [0xEF, 0xBF, 0xBD] + WithoutNul(b)
  {
    WithoutNulSplits(a + [0], b);
    WithoutNulSplits(a, [0]);
    WithoutNulKeeps(a);
    assert [0][1..] == [];
    assert WithoutNul([0]) == [0xEF, 0xBF, 0xBD];
  }

  lemma {:induction false} WithoutNulKeeps(s: seq<Byte>)
    requires 0 !in s
    ensures WithoutNul(s) == s
  {
    if s == [] {
    } else {
      WithoutNulKeeps(s[1..]);
    }
  }

  lemma {:induction false} WithoutNulIsValid(s: seq<Byte>)
    requires ValidUtf8(s)
    ensures ValidUtf8(WithoutNul(s))
    decreases |s|
  {
    if s == [] {
    } else {
      var n := RuneLen(s);
      var r, rest := s[..n], s[n..];
      WithoutNulIsValid(rest);
      WithoutNulSplits(r, rest);
      assert s == r + rest;
      if s[0] == 0 {
        assert r == [0];
        assert WithoutNul(r) == REPLACEMENT;
        Prepend(REPLACEMENT, WithoutNul(rest));
      } else {
        assert RuneLen(r) == n && 0 !in r;
        WithoutNulKeeps(r);
        Prepend(r, WithoutNul(rest));
      }
    }
  }

  /** strings.ReplaceAll of NUL */
  method ReplaceNul(s: seq<Byte>) returns (r: seq<Byte>)
    ensures r == WithoutNul(s)
  {
    r := [];
    var i := 0;
    while i < |s|
      invariant 0 <= i <= |s|
      invariant r + WithoutNul(s[i..]) == WithoutNul(s)
    {
      assert s[i..][1..] == s[i + 1..];
      r := r + if s[i] == 0 then REPLACEMENT else [s[i]];
      i := i + 1;
    }
  }

  /* ---- truncation ---- */

  /** A prefix of valid text is valid exactly when it ends before the start of a character. */
  lemma {:induction false} ValidPrefix(s: seq<Byte>, j: nat)
    requires ValidUtf8(s) && j <= |s|
    ensures ValidUtf8(s[..j]) <==> j == |s| || RuneStart(s[j])
    decreases |s|
  {
    if s == [] {
    } else {
      var n := RuneLen(s);
      if j >= n {
        ValidPrefix(s[n..], j - n);
        assert RuneLen(s[..j]) == n;
        assert s[..j][n..] == s[n..][..j - n];
      } else if j > 0 {
        assert RuneLen(s[..j]) == 0;
      }
    }
  }

  /** Among four neighbouring bytes of valid text one starts a character. */
  lemma {:induction false} StartWithinThree(s: seq<Byte>, j: nat) returns (i: nat)
    requires ValidUtf8(s) && j < |s|
    ensures i <= j <= i + 3 && RuneStart(s[i])
    decreases |s|
  {
    var n := RuneLen(s);
    if j < n {
      i := 0;
    } else {
      i := StartWithinThree(s[n..], j - n);
      i := i + n;
    }
  }

  /** The loop of sanitizeError: the longest valid prefix that fits, at most three bytes short of it. */
  method Truncate(s: seq<Byte>) returns (r: seq<Byte>)
    requires ValidUtf8(s)
    ensures r <= s && ValidUtf8(r) && |r| <= 4_000
    ensures |s| <= 4_000 ==> r == s
    ensures |s| > 4_000 ==> 3_997 <= |r|
    ensures forall j :: |r| < j <= |s| && j <= 4_000 ==> !ValidUtf8(s[..j])
  {
    if |s| <= MAX_ERROR {
      return s;
    }
    var end := MAX_ERROR;
    ghost var start := StartWithinThree(s, MAX_ERROR);
    while end > 0 && !RuneStart(s[end])
      invariant start <= end <= MAX_ERROR
      invariant forall j :: end < j <= MAX_ERROR ==> !RuneStart(s[j])
    {
      end := end - 1;
    }
    ValidPrefix(s, end);
    forall j | end < j <= MAX_ERROR ensures !ValidUtf8(s[..j]) {
      ValidPrefix(s, j);
    }
    return s[..end];
  }

  /** sanitizeError */
  method SanitizeError(msg: seq<Byte>) returns (r: seq<Byte>)
    ensures ValidUtf8(r) && 0 !in r && |r| <= 4_000
    ensures var clean := WithoutNul(Cleaned(msg, false));
            && r <= clean && (|clean| <= 4_000 ==> r == clean) && (|clean| > 4_000 ==> 3_997 <= |r|)
    ensures ValidUtf8(msg) && 0 !in msg && |msg| <= 4_000 ==> r == msg
  {
    var valid := ToValid(msg);
    CleanedIsValid(msg, false);
    CleanedKeepsValid(msg);
    var clean := ReplaceNul(valid);
    WithoutNulIsValid(valid);
    NoNul(valid);
    if 0 !in valid {
      WithoutNulKeeps(valid);
    }
    r := Truncate(clean);
  }
}
