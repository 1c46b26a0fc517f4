/** UTF-8 as Go decodes and encodes it (`unicode/utf8`, `for … range` over a
    string, `string([]rune)`), and the content sanitiser that the storage layer
    applies to every article before saving it. */
module Utf8 {
  import opened Base

  /** utf8.RuneError, U+FFFD. */
  const RuneError: int := 0xFFFD

  /** A Unicode scalar value: a code point that is not a surrogate. */
  predicate IsScalar(r: int)
  {
    0 <= r <= 0x10FFFF && !(0xD800 <= r <= 0xDFFF)
  }

  predicate IsCont(b: Byte)
  {
    0x80 <= b <= 0xBF
  }

  datatype Decoded = Decoded(rune: int, size: nat)

  /** A decoding error: (RuneError, 1). A literal U+FFFD decodes to (RuneError, 3). */
  predicate IsError(d: Decoded)
  {
    d.rune == RuneError && d.size == 1
  }

  /** Number of bytes announced by a lead byte, 0 for a byte that cannot start a
      multi-byte sequence (0x80..0xC1 and 0xF5..0xFF). */
  function SeqLen(p0: Byte): nat
  {
    if 0xC2 <= p0 <= 0xDF then 2
    else if 0xE0 <= p0 <= 0xEF then 3
    else if 0xF0 <= p0 <= 0xF4 then 4
    else 0
  }

  /** The range allowed for the second byte after lead byte `p0`, which excludes
      overlong forms, surrogates and code points above U+10FFFF. */
  function AcceptLo(p0: Byte): Byte
  {
    if p0 == 0xE0 then 0xA0 else if p0 == 0xF0 then 0x90 else 0x80
  }

  function AcceptHi(p0: Byte): Byte
  {
    if p0 == 0xED then 0x9F else if p0 == 0xF4 then 0x8F else 0xBF
  }

  /** utf8.DecodeRune on a non-empty string (and the runtime decoder the `range`
      loop uses, which behaves the same). The masks `p0 & 0x1F`, `p0 & 0x0F`,
      `p0 & 0x07` and `b & 0x3F` are written as the subtractions they amount to
      on the byte ranges the tests let through. */
  function DecodeRune(s: Bytes): (d: Decoded)
    requires |s| > 0
    ensures 1 <= d.size <= 4 && d.size <= |s|
    ensures d.size == 1 ==> d.rune == s[0] || IsError(d)
    ensures s[0] < 0x80 ==> d == Decoded(s[0], 1)
    ensures IsScalar(d.rune)
  {
    var p0: int := s[0];
    var n := SeqLen(s[0]);
    if p0 < 0x80 then Decoded(p0, 1)
    else if n == 0 || |s| < n then Decoded(RuneError, 1)
    else if !(AcceptLo(s[0]) <= s[1] <= AcceptHi(s[0])) then Decoded(RuneError, 1)
    else if n == 2 then Decoded((p0 - 0xC0) * 64 + (s[1] as int - 0x80), 2)
    else if !IsCont(s[2]) then Decoded(RuneError, 1)
    else if n == 3 then Decoded((p0 - 0xE0) * 4096 + (s[1] as int - 0x80) * 64 + (s[2] as int - 0x80), 3)
    else if !IsCont(s[3]) then Decoded(RuneError, 1)
    else Decoded((p0 - 0xF0) * 262144 + (s[1] as int - 0x80) * 4096 + (s[2] as int - 0x80) * 64 + (s[3] as int - 0x80), 4)
  }

  /** utf8.ValidString: decoding never fails. */
  predicate Valid(s: Bytes)
    decreases |s|
  {
    |s| == 0 || (!IsError(DecodeRune(s)) && Valid(s[DecodeRune(s).size..]))
  }

  /** The runes a `for _, r := range s` loop visits, in order. */
  function Runes(s: Bytes): (rs: seq<int>)
    ensures |rs| <= |s|
    decreases |s|
  {
    if |s| == 0 then [] else [DecodeRune(s).rune] + Runes(s[DecodeRune(s).size..])
  }

  /** utf8.EncodeRune: a value that is not a scalar is encoded as U+FFFD. */
  function EncodeRune(r: int): (e: Bytes)
    ensures 1 <= |e| <= 4
  {
    if 0 <= r < 0x80 then [r]
    else if 0 <= r < 0x800 then [0xC0 + r / 64, 0x80 + r % 64]
    else if !IsScalar(r) then [0xEF, 0xBF, 0xBD]
    else if r < 0x10000 then [0xE0 + r / 4096, 0x80 + (r / 64) % 64, 0x80 + r % 64]
    else [0xF0 + r / 262144, 0x80 + (r / 4096) % 64, 0x80 + (r / 64) % 64, 0x80 + r % 64]
  }

  /** string(v) for a rune slice `v`. */
  function EncodeRunes(rs: seq<int>): (s: Bytes)
    ensures |rs| <= |s| <= 4 * |rs|
  {
    if rs == [] then [] else EncodeRune(rs[0]) + EncodeRunes(rs[1..])
  }

  // ---- the two round trips ----------------------------------------------

  lemma EncodeDecode2(r: int, t: Bytes)
    requires 0x80 <= r < 0x800
    ensures DecodeRune(EncodeRune(r) + t) == Decoded(r, 2)
  {
    var s := EncodeRune(r) + t;
    assert s[0] == 0xC0 + r / 64 && s[1] == 0x80 + r % 64;
  }

  lemma EncodeDecode3(r: int, t: Bytes)
    requires 0x800 <= r < 0x10000 && IsScalar(r)
    ensures DecodeRune(EncodeRune(r) + t) == Decoded(r, 3)
  {
    var s := EncodeRune(r) + t;
    Digits(r);
    var hi, mid, lo := r / 4096, (r / 64) % 64, r % 64;
    assert r == hi * 4096 + mid * 64 + lo;
    assert s[0] == 0xE0 + hi && s[1] == 0x80 + mid && s[2] == 0x80 + lo;
    assert hi == 0 ==> mid >= 32;
    assert hi == 13 ==> mid < 32;
  }

  lemma EncodeDecode4(r: int, t: Bytes)
    requires 0x10000 <= r <= 0x10FFFF
    ensures DecodeRune(EncodeRune(r) + t) == Decoded(r, 4)
  {
    var s := EncodeRune(r) + t;
    Digits(r);
    var b0, b1, b2, b3 := r / 262144, (r / 4096) % 64, (r / 64) % 64, r % 64;
    assert r == b0 * 262144 + b1 * 4096 + b2 * 64 + b3;
    assert 0 <= b0 <= 4;
    assert s[0] == 0xF0 + b0 && s[1] == 0x80 + b1 && s[2] == 0x80 + b2 && s[3] == 0x80 + b3;
    assert b0 == 0 ==> b1 >= 16;
    assert b0 == 4 ==> b1 < 16;
  }

  /** The base-64 digits of a natural number, as the encoder takes them apart. */
  lemma Digits(r: nat)
    ensures r == (r / 64) * 64 + r % 64
    ensures r / 64 == (r / 4096) * 64 + (r / 64) % 64
    ensures r / 4096 == (r / 262144) * 64 + (r / 4096) % 64
  {
    var q, m := r / 64, r % 64;
    var q2, m2 := q / 64, q % 64;
    assert r == 4096 * q2 + (64 * m2 + m);
    DivMod4096(q2, 64 * m2 + m);
    var q3, m3 := q2 / 64, q2 % 64;
    assert r == 262144 * q3 + (4096 * m3 + 64 * m2 + m);
    DivMod262144(q3, 4096 * m3 + 64 * m2 + m);
  }

  /** Decoding the encoding of a scalar gives the scalar back, whatever follows. */
  lemma EncodeDecode(r: int, t: Bytes)
    requires IsScalar(r)
    ensures DecodeRune(EncodeRune(r) + t) == Decoded(r, |EncodeRune(r)|)
  {
    if r < 0x80 {
    } else if r < 0x800 {
      EncodeDecode2(r, t);
    } else if r < 0x10000 {
      EncodeDecode3(r, t);
    } else {
      EncodeDecode4(r, t);
    }
  }

  /** Division by 64, 4096 or 262144 undoes `q * d + m` for `0 <= m < d`. */
  lemma DivMod64(q: int, m: int)
    requires 0 <= m < 64
    ensures (q * 64 + m) / 64 == q && (q * 64 + m) % 64 == m
  {
  }

  lemma DivMod4096(q: int, m: int)
    requires 0 <= m < 4096
    ensures (q * 4096 + m) / 4096 == q
  {
  }

  lemma DivMod262144(q: int, m: int)
    requires 0 <= m < 262144
    ensures (q * 262144 + m) / 262144 == q
  {
  }

  lemma DecodeEncode2(s: Bytes)
    requires |s| > 0 && DecodeRune(s).size == 2
    ensures EncodeRune(DecodeRune(s).rune) == s[..2]
  {
    var r := DecodeRune(s).rune;
    DivMod64(s[0] as int - 0xC0, s[1] as int - 0x80);
  }

  lemma DecodeEncode3(s: Bytes)
    requires |s| > 0 && DecodeRune(s).size == 3
    ensures EncodeRune(DecodeRune(s).rune) == s[..3]
  {
    var r := DecodeRune(s).rune;
    var b0, b1, b2 := s[0] as int - 0xE0, s[1] as int - 0x80, s[2] as int - 0x80;
    assert r == (b0 * 64 + b1) * 64 + b2;
    DivMod64(b0 * 64 + b1, b2);
    DivMod64(b0, b1);
    DivMod4096(b0, b1 * 64 + b2);
  }

  lemma DecodeEncode4(s: Bytes)
    requires |s| > 0 && DecodeRune(s).size == 4
    ensures EncodeRune(DecodeRune(s).rune) == s[..4]
  {
    var r := DecodeRune(s).rune;
    var b0, b1, b2, b3 := s[0] as int - 0xF0, s[1] as int - 0x80, s[2] as int - 0x80, s[3] as int - 0x80;
    assert r == ((b0 * 64 + b1) * 64 + b2) * 64 + b3;
    DivMod64((b0 * 64 + b1) * 64 + b2, b3);
    DivMod64(b0 * 64 + b1, b2);
    DivMod4096(b0 * 64 + b1, b2 * 64 + b3);
    DivMod64(b0, b1);
    DivMod262144(b0, (b1 * 64 + b2) * 64 + b3);
  }

  /** Encoding a successfully decoded rune gives back the bytes it came from. */
  lemma DecodeEncode(s: Bytes)
    requires |s| > 0 && !IsError(DecodeRune(s))
    ensures EncodeRune(DecodeRune(s).rune) == s[..DecodeRune(s).size]
  {
    var d := DecodeRune(s);
    if d.size == 2 {
      DecodeEncode2(s);
    } else if d.size == 3 {
      DecodeEncode3(s);
    } else if d.size == 4 {
      DecodeEncode4(s);
    }
  }

  predicate AllScalars(rs: seq<int>)
  {
    forall r :: r in rs ==> IsScalar(r)
  }

  /** Every rune a `range` loop yields is a scalar value. */
  lemma {:induction false} RunesAreScalars(s: Bytes)
    ensures AllScalars(Runes(s))
    decreases |s|
  {
    if |s| > 0 {
      RunesStep(s);
      RunesAreScalars(s[DecodeRune(s).size..]);
    }
  }

  /** Encoding scalars gives valid UTF-8 that decodes to the same scalars. */
  lemma {:induction false} EncodeRunesRoundTrip(rs: seq<int>)
    requires AllScalars(rs)
    ensures Valid(EncodeRunes(rs)) && Runes(EncodeRunes(rs)) == rs
    decreases |rs|
  {
    if rs != [] {
      var e, rest := EncodeRune(rs[0]), EncodeRunes(rs[1..]);
      var s := e + rest;
      assert rs[0] in rs;
      assert AllScalars(rs[1..]) by {
        forall r | r in rs[1..] ensures IsScalar(r) {
          assert r in rs;
        }
      }
      EncodeRunesRoundTrip(rs[1..]);
      EncodeDecode(rs[0], rest);
      assert s[|e|..] == rest;
      RunesStep(s);
      assert rs == [rs[0]] + rs[1..];
    }
  }

  /** The first step of `Valid` and of `Runes`. */
  lemma ValidStep(s: Bytes)
    requires |s| > 0 && Valid(s)
    ensures !IsError(DecodeRune(s)) && Valid(s[DecodeRune(s).size..])
  {
  }

  lemma RunesStep(s: Bytes)
    requires |s| > 0
    ensures Runes(s) == [DecodeRune(s).rune] + Runes(s[DecodeRune(s).size..])
  {
  }

  /** Valid UTF-8 is the encoding of the runes it decodes to. */
  lemma {:induction false} ValidIsEncoding(s: Bytes)
    requires Valid(s)
    ensures EncodeRunes(Runes(s)) == s
    decreases |s|
  {
    if |s| > 0 {
      var r, rest := ValidFirst(s);
      ValidIsEncoding(rest);
      EncodeRunesStep(r, Runes(rest));
    }
  }

  /** Valid UTF-8 splits into the encoding of its first rune and valid UTF-8. */
  lemma ValidFirst(s: Bytes) returns (r: int, rest: Bytes)
    requires |s| > 0 && Valid(s)
    ensures |rest| < |s| && Valid(rest)
    ensures s == EncodeRune(r) + rest && Runes(s) == [r] + Runes(rest)
  {
    var d := DecodeRune(s);
    r, rest := d.rune, s[d.size..];
    ValidStep(s);
    DecodeEncode(s);
    RunesStep(s);
    assert s == s[..d.size] + rest;
  }

  /** The encoding of a rune sequence that starts with `r`. */
  lemma EncodeRunesStep(r: int, rs: seq<int>)
    ensures EncodeRunes([r] + rs) == EncodeRune(r) + EncodeRunes(rs)
  {
    assert ([r] + rs)[1..] == rs;
  }

  // ---- NUL removal --------------------------------------------------------

  predicate NoNul(s: Bytes)
  {
    0 !in s
  }

  /** strings.ReplaceAll(s, "\x00", ""). */
  function RemoveNul(s: Bytes): (r: Bytes)
    ensures |r| <= |s|
  {
    if s == [] then []
    else if s[0] == 0 then RemoveNul(s[1..])
    else [s[0]] + RemoveNul(s[1..])
  }

  /** RemoveNul leaves no NUL byte and leaves a string without one unchanged. */
  lemma {:induction false} RemoveNulRemoves(s: Bytes)
    ensures NoNul(RemoveNul(s))
    ensures NoNul(s) ==> RemoveNul(s) == s
    decreases |s|
  {
    if s != [] {
      RemoveNulRemoves(s[1..]);
      assert s == [s[0]] + s[1..];
      if NoNul(s) {
        assert s[1..] == s[1..];
        assert forall b :: b in s[1..] ==> b in s;
      }
    }
  }

  /** RemoveNul deletes exactly the NUL bytes: what is left is `s` with its
      zero bytes taken out. */
  lemma {:induction false} RemoveNulCounts(s: Bytes)
    ensures multiset(RemoveNul(s)) == multiset(s)[0 := 0]
    decreases |s|
  {
    if s != [] {
      RemoveNulCounts(s[1..]);
      assert s == [s[0]] + s[1..];
    }
  }

  lemma {:induction false} RemoveNulAppend(a: Bytes, b: Bytes)
    ensures RemoveNul(a + b) == RemoveNul(a) + RemoveNul(b)
    decreases |a|
  {
    if a != [] {
      assert (a + b)[1..] == a[1..] + b;
      RemoveNulAppend(a[1..], b);
    } else {
      assert a + b == b;
    }
  }

  /** Rune sequence with every U+0000 removed. */
  function DropNulRunes(rs: seq<int>): (r: seq<int>)
    ensures |r| <= |rs|
  {
    if rs == [] then []
    else if rs[0] == 0 then DropNulRunes(rs[1..])
    else [rs[0]] + DropNulRunes(rs[1..])
  }

  /** Rune sequence with every U+FFFD removed, which the sanitiser's loop does
      both for decoding errors and for literal U+FFFD runes. */
  function DropRuneErrors(rs: seq<int>): (r: seq<int>)
    ensures |r| <= |rs|
  {
    if rs == [] then []
    else if rs[0] == RuneError then DropRuneErrors(rs[1..])
    else [rs[0]] + DropRuneErrors(rs[1..])
  }

  /** The runes DropNulRunes keeps are those of `rs` other than U+0000. */
  lemma {:induction false} DropNulRunesMembers(rs: seq<int>)
    ensures forall x :: x in DropNulRunes(rs) <==> x in rs && x != 0
    decreases |rs|
  {
    if rs != [] {
      DropNulRunesMembers(rs[1..]);
      assert rs == [rs[0]] + rs[1..];
    }
  }

  /** The runes DropRuneErrors keeps are those of `rs` other than U+FFFD. */
  lemma {:induction false} DropRuneErrorsMembers(rs: seq<int>)
    ensures forall x :: x in DropRuneErrors(rs) <==> x in rs && x != RuneError
    decreases |rs|
  {
    if rs != [] {
      DropRuneErrorsMembers(rs[1..]);
      assert rs == [rs[0]] + rs[1..];
    }
  }

  /** A NUL byte only ever encodes U+0000, so removing NUL bytes from encoded
      scalars is the same as removing U+0000 runes before encoding. */
  lemma {:induction false} RemoveNulOfEncoding(rs: seq<int>)
    requires AllScalars(rs)
    ensures RemoveNul(EncodeRunes(rs)) == EncodeRunes(DropNulRunes(rs))
    decreases |rs|
  {
    if rs != [] {
      var e := EncodeRune(rs[0]);
      RemoveNulAppend(e, EncodeRunes(rs[1..]));
      assert rs[0] in rs;
      assert AllScalars(rs[1..]) by {
        forall r | r in rs[1..] ensures IsScalar(r) {
          assert r in rs;
        }
      }
      RemoveNulOfEncoding(rs[1..]);
      if rs[0] == 0 {
        assert e == [0];
        assert RemoveNul(e) == [];
      } else {
        assert NoNul(e);
        RemoveNulRemoves(e);
      }
    }
  }

  // ---- the storage sanitiser ----------------------------------------------

  /** The content the storage layer saves for an article: when the content is not
      valid UTF-8 it is re-encoded from its runes without U+FFFD, then every NUL
      byte is removed. */
  function StoredContent(c: Bytes): Bytes
  {
    RemoveNul(if Valid(c) then c else EncodeRunes(DropRuneErrors(Runes(c))))
  }

  /** The runes the sanitiser encodes, before NUL removal. */
  lemma KeptRunesAreScalars(c: Bytes)
    ensures AllScalars(DropRuneErrors(Runes(c)))
  {
    RunesAreScalars(c);
    DropRuneErrorsMembers(Runes(c));
  }

  /** Stored content never contains a NUL byte and is always valid UTF-8. */
  lemma StoredContentIsClean(c: Bytes)
    ensures NoNul(StoredContent(c)) && Valid(StoredContent(c))
  {
    var rs := if Valid(c) then Runes(c) else DropRuneErrors(Runes(c));
    RunesAreScalars(c);
    KeptRunesAreScalars(c);
    if Valid(c) {
      ValidIsEncoding(c);
    }
    RemoveNulRemoves(EncodeRunes(rs));
    RemoveNulOfEncoding(rs);
    DropNulRunesMembers(rs);
    EncodeRunesRoundTrip(DropNulRunes(rs));
  }

  /** Valid UTF-8 content without NUL bytes is stored unchanged. */
  lemma StoredContentKeepsClean(c: Bytes)
    requires Valid(c) && NoNul(c)
    ensures StoredContent(c) == c
  {
    RemoveNulRemoves(c);
  }

  /** For invalid input, the stored runes are the input's runes, in order, with
      every decoding error, every U+FFFD and every U+0000 removed. */
  lemma StoredContentOfInvalid(c: Bytes)
    requires !Valid(c)
    ensures Runes(StoredContent(c)) == DropNulRunes(DropRuneErrors(Runes(c)))
  {
    var rs := DropRuneErrors(Runes(c));
    KeptRunesAreScalars(c);
    RemoveNulOfEncoding(rs);
    DropNulRunesMembers(rs);
    EncodeRunesRoundTrip(DropNulRunes(rs));
  }

  /** One turn of the sanitiser's loop: the first rune of `s` is kept unless it
      is U+FFFD, and decoding resumes after it. */
  lemma DropRuneErrorsStep(s: Bytes)
    requires |s| > 0
    ensures var d := DecodeRune(s);
      DropRuneErrors(Runes(s)) ==
        (if d.rune == RuneError then [] else [d.rune]) + DropRuneErrors(Runes(s[d.size..]))
  {
    var d := DecodeRune(s);
    var tail := Runes(s[d.size..]);
    RunesStep(s);
    assert ([d.rune] + tail)[1..] == tail;
  }

  /** The `for _, r := range content` loop that keeps every rune except RuneError;
      `rest` is the part of `content` the loop has not reached yet. */
  method FilterRunes(content: Bytes) returns (v: seq<int>)
    ensures v == DropRuneErrors(Runes(content))
  {
    v := [];
    var rest := content;
    while rest != []
      invariant DropRuneErrors(Runes(content)) == v + DropRuneErrors(Runes(rest))
      decreases |rest|
    {
      var d := DecodeRune(rest);
      DropRuneErrorsStep(rest);
      ghost var later := DropRuneErrors(Runes(rest[d.size..]));
      if d.rune != RuneError {
        assert v + ([d.rune] + later) == (v + [d.rune]) + later;
        v := v + [d.rune];
      } else {
        assert [] + later == later;
      }
      rest := rest[d.size..];
    }
    assert v + [] == v;
  }

  /** The sanitiser as the storage layer runs it: the rune filter loop when the
      content is not valid, then NUL removal. */
  method Sanitize(content: Bytes) returns (r: Bytes)
    ensures r == StoredContent(content)
  {
    var c := content;
    if !Valid(content) {
      var v := FilterRunes(content);
      c := EncodeRunes(v);
    }
    r := RemoveNul(c);
  }
}
