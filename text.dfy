/** Byte-string helpers with the semantics of Go's `strings` package, and the
    Markdown fence stripping that every pipeline applies to a model reply before
    decoding it as JSON. */
module Text {
  import opened Base

  predicate HasPrefix<T(==)>(s: seq<T>, p: seq<T>)
  {
    |p| <= |s| && s[..|p|] == p
  }

  predicate HasSuffix<T(==)>(s: seq<T>, p: seq<T>)
  {
    |p| <= |s| && s[|s| - |p|..] == p
  }

  /** `r` is a contiguous piece of `s`. */
  ghost predicate IsSlice<T>(r: seq<T>, s: seq<T>)
  {
    exists i, j :: 0 <= i <= j <= |s| && r == s[i..j]
  }

  /** strings.TrimPrefix */
  function TrimPrefix(s: Bytes, p: Bytes): (r: Bytes)
    ensures HasPrefix(s, p) ==> s == p + r
    ensures !HasPrefix(s, p) ==> r == s
  {
    if HasPrefix(s, p) then s[|p|..] else s
  }

  /** strings.TrimSuffix */
  function TrimSuffix(s: Bytes, p: Bytes): (r: Bytes)
    ensures HasSuffix(s, p) ==> s == r + p
    ensures !HasSuffix(s, p) ==> r == s
  {
    if HasSuffix(s, p) then s[..|s| - |p|] else s
  }

  /** strings.Contains */
  predicate Contains<T(==)>(s: seq<T>, sub: seq<T>)
    decreases |s|
  {
    HasPrefix(s, sub) || (|s| > 0 && Contains(s[1..], sub))
  }

  /** `sub` occurs in `s` at offset `i`. */
  predicate OccursAt<T(==)>(s: seq<T>, sub: seq<T>, i: int)
  {
    0 <= i <= |s| - |sub| && s[i..i + |sub|] == sub
  }

  /** `Contains` agrees with the positional definition: `sub` occurs at some offset. */
  lemma {:induction false} ContainsIffOccurs<T>(s: seq<T>, sub: seq<T>)
    ensures Contains(s, sub) <==> exists i :: OccursAt(s, sub, i)
    decreases |s|
  {
    if HasPrefix(s, sub) {
      assert OccursAt(s, sub, 0);
    } else if |s| == 0 {
    } else {
      ContainsIffOccurs(s[1..], sub);
      if exists i :: OccursAt(s, sub, i) {
        var i :| OccursAt(s, sub, i);
        assert i != 0;
        assert s[1..][i - 1..i - 1 + |sub|] == s[i..i + |sub|];
        assert OccursAt(s[1..], sub, i - 1);
      }
      if exists i :: OccursAt(s[1..], sub, i) {
        var i :| OccursAt(s[1..], sub, i);
        assert s[i + 1..i + 1 + |sub|] == s[1..][i..i + |sub|];
        assert OccursAt(s, sub, i + 1);
      }
    }
  }

  function LowerAscii(b: Byte): Byte
  {
    if 65 <= b <= 90 then b + 32 else b
  }

  /** strings.ToLower, restricted to ASCII letters (see README for why this
      decides the "too many requests" test exactly as Go does). */
  function ToLowerAscii(s: Bytes): (r: Bytes)
    ensures |r| == |s|
    ensures forall i :: 0 <= i < |s| ==> r[i] == LowerAscii(s[i])
    ensures forall i :: 0 <= i < |r| ==> !(65 <= r[i] <= 90)
    ensures forall i :: 0 <= i < |s| && !(65 <= s[i] <= 90) ==> r[i] == s[i]
    ensures forall i :: 0 <= i < |s| && s[i] >= 128 ==> r[i] == s[i]
  {
    seq(|s|, i requires 0 <= i < |s| => LowerAscii(s[i]))
  }

  /** Lower-casing twice is lower-casing once. */
  lemma ToLowerAsciiIdempotent(s: Bytes)
    ensures ToLowerAscii(ToLowerAscii(s)) == ToLowerAscii(s)
  {
  }

  /** Texts that differ only in the case of ASCII letters lower-case alike. */
  lemma ToLowerAsciiIgnoresCase(s: Bytes, t: Bytes)
    requires |s| == |t| && forall i :: 0 <= i < |s| ==> LowerAscii(s[i]) == LowerAscii(t[i])
    ensures ToLowerAscii(s) == ToLowerAscii(t)
  {
  }

  /** `content[:n]` when `len(content) > n`, otherwise `content`. */
  function Truncate(s: Bytes, n: nat): (r: Bytes)
    ensures |r| <= n && HasPrefix(s, r)
    ensures |s| <= n <==> r == s
    ensures |s| > n ==> |r| == n
  {
    if |s| > n then s[..n] else s
  }

  /** strings.Join: the parts with `sep` between each two neighbours. */
  function Join(parts: seq<Bytes>, sep: Bytes): (r: Bytes)
    ensures parts == [] ==> r == []
    ensures |parts| == 1 ==> r == parts[0]
    ensures parts != [] ==> |r| == SumLengths(parts) + (|parts| - 1) * |sep|
  {
    if parts == [] then []
    else if |parts| == 1 then parts[0]
    else Join(parts[..|parts| - 1], sep) + sep + parts[|parts| - 1]
  }

  // ---- strings.TrimSpace -------------------------------------------------

  predicate IsAsciiSpace(b: Byte)
  {
    b == 9 || b == 10 || b == 11 || b == 12 || b == 13 || b == 32
  }

  /** The two-byte encodings of U+0085 and U+00A0. */
  predicate IsSpace2(b0: Byte, b1: Byte)
  {
    b0 == 0xC2 && (b1 == 0x85 || b1 == 0xA0)
  }

  /** The three-byte encodings of U+1680, U+2000..U+200A, U+2028, U+2029,
      U+202F, U+205F and U+3000. */
  predicate IsSpace3(b0: Byte, b1: Byte, b2: Byte)
  {
    || (b0 == 0xE1 && b1 == 0x9A && b2 == 0x80)
    || (b0 == 0xE2 && b1 == 0x80 && (0x80 <= b2 <= 0x8A || b2 == 0xA8 || b2 == 0xA9 || b2 == 0xAF))
    || (b0 == 0xE2 && b1 == 0x81 && b2 == 0x9F)
    || (b0 == 0xE3 && b1 == 0x80 && b2 == 0x80)
  }

  /** `w` is the UTF-8 encoding of a rune for which Go's unicode.IsSpace holds
      ('\t' '\n' '\v' '\f' '\r' ' ' and the runes above). */
  predicate IsSpaceEncoding(w: Bytes)
  {
    || (|w| == 1 && IsAsciiSpace(w[0]))
    || (|w| == 2 && IsSpace2(w[0], w[1]))
    || (|w| == 3 && IsSpace3(w[0], w[1], w[2]))
  }

  /** The `w` bytes of `s` from offset `i` encode a white-space rune. */
  predicate SpaceEncodedAt(s: Bytes, i: nat, w: nat)
    requires i + w <= |s|
  {
    IsSpaceEncoding(s[i..i + w])
  }

  /** The `w` bytes of `s` before offset `j` encode a white-space rune. */
  predicate SpaceEndsAt(s: Bytes, j: nat, w: nat)
    requires w <= j <= |s|
  {
    IsSpaceEncoding(s[j - w..j])
  }

  /** Length of the white-space rune that starts at `i` in `s[..hi]`, 0 if none
      (what utf8.DecodeRuneInString and unicode.IsSpace decide together). */
  function SpaceAt(s: Bytes, i: nat, hi: nat): (n: nat)
    requires i <= hi <= |s|
    ensures n <= 3 && i + n <= hi
  {
    if hi - i >= 1 && IsAsciiSpace(s[i]) then 1
    else if hi - i >= 2 && IsSpace2(s[i], s[i + 1]) then 2
    else if hi - i >= 3 && IsSpace3(s[i], s[i + 1], s[i + 2]) then 3
    else 0
  }

  /** Length of the white-space rune that ends at `j` in `s[lo..]`, 0 if none
      (what utf8.DecodeLastRuneInString and unicode.IsSpace decide together). */
  function SpaceBefore(s: Bytes, lo: nat, j: nat): (n: nat)
    requires lo <= j <= |s|
    ensures n <= 3 && lo + n <= j
  {
    if j - lo >= 1 && IsAsciiSpace(s[j - 1]) then 1
    else if j - lo >= 2 && IsSpace2(s[j - 2], s[j - 1]) then 2
    else if j - lo >= 3 && IsSpace3(s[j - 3], s[j - 2], s[j - 1]) then 3
    else 0
  }

  /** SpaceAt and SpaceBefore recognise exactly the white-space encodings. */
  lemma SpaceAtIsSpaceEncoding(s: Bytes, i: nat, hi: nat)
    requires i <= hi <= |s|
    ensures SpaceAt(s, i, hi) > 0 ==> SpaceEncodedAt(s, i, SpaceAt(s, i, hi))
    ensures SpaceAt(s, i, hi) == 0 <==>
      forall w :: 1 <= w <= 3 && i + w <= hi ==> !SpaceEncodedAt(s, i, w)
  {
    forall w | 1 <= w <= 3 && i + w <= hi {
      SpaceEncodedAtBytes(s, i, w);
    }
  }

  lemma SpaceBeforeIsSpaceEncoding(s: Bytes, lo: nat, j: nat)
    requires lo <= j <= |s|
    ensures SpaceBefore(s, lo, j) > 0 ==> SpaceEndsAt(s, j, SpaceBefore(s, lo, j))
    ensures SpaceBefore(s, lo, j) == 0 <==>
      forall w :: 1 <= w <= 3 && lo + w <= j ==> !SpaceEndsAt(s, j, w)
  {
    forall w | 1 <= w <= 3 && lo + w <= j {
      SpaceEndsAtBytes(s, j, w);
    }
  }

  lemma SpaceEncodedAtBytes(s: Bytes, i: nat, w: nat)
    requires 1 <= w <= 3 && i + w <= |s|
    ensures SpaceEncodedAt(s, i, w) <==>
      if w == 1 then IsAsciiSpace(s[i])
      else if w == 2 then IsSpace2(s[i], s[i + 1])
      else IsSpace3(s[i], s[i + 1], s[i + 2])
  {
    var t := s[i..i + w];
    assert t[0] == s[i];
    if w >= 2 {
      assert t[1] == s[i + 1];
    }
  }

  lemma SpaceEndsAtBytes(s: Bytes, j: nat, w: nat)
    requires 1 <= w <= 3 && w <= j <= |s|
    ensures SpaceEndsAt(s, j, w) <==>
      if w == 1 then IsAsciiSpace(s[j - 1])
      else if w == 2 then IsSpace2(s[j - 2], s[j - 1])
      else IsSpace3(s[j - 3], s[j - 2], s[j - 1])
  {
    var t := s[j - w..j];
    assert t[w - 1] == s[j - 1];
    if w >= 2 {
      assert t[w - 2] == s[j - 2];
    }
  }

  /** TrimLeftFunc(s[i:], unicode.IsSpace), as the offset where it stops. */
  function SkipSpaces(s: Bytes, i: nat): (j: nat)
    requires i <= |s|
    ensures i <= j <= |s| && SpaceAt(s, j, |s|) == 0
    ensures SpaceAt(s, i, |s|) == 0 ==> j == i
    decreases |s| - i
  {
    var n := SpaceAt(s, i, |s|);
    if n == 0 then i else SkipSpaces(s, i + n)
  }

  /** TrimRightFunc(s[lo:j], unicode.IsSpace), as the offset where it stops. */
  function DropSpaces(s: Bytes, lo: nat, j: nat): (k: nat)
    requires lo <= j <= |s|
    ensures lo <= k <= j && SpaceBefore(s, lo, k) == 0
    ensures SpaceBefore(s, lo, j) == 0 ==> k == j
    decreases j
  {
    var n := SpaceBefore(s, lo, j);
    if n == 0 then j else DropSpaces(s, lo, j - n)
  }

  /** strings.TrimSpace: leading, then trailing white-space runes removed. */
  function TrimSpace(s: Bytes): (r: Bytes)
    ensures |r| <= |s|
  {
    var l := SkipSpaces(s, 0);
    s[l..DropSpaces(s, l, |s|)]
  }

  /** No white-space rune at either end of `r`. */
  predicate NoSpaceAtEnds(r: Bytes)
  {
    SpaceAt(r, 0, |r|) == 0 && SpaceBefore(r, 0, |r|) == 0
  }

  /** Looking at a narrower window can only find less white space. */
  lemma SpaceAtNarrower(s: Bytes, i: nat, hi: nat, hi': nat)
    requires i <= hi' <= hi <= |s| && SpaceAt(s, i, hi) == 0
    ensures SpaceAt(s, i, hi') == 0
  {
  }

  /** Both recognisers depend only on the bytes inside their window. */
  lemma SpaceInSlice(s: Bytes, a: nat, b: nat)
    requires a <= b <= |s|
    ensures SpaceAt(s[a..b], 0, b - a) == SpaceAt(s, a, b)
    ensures SpaceBefore(s[a..b], 0, b - a) == SpaceBefore(s, a, b)
  {
    var r := s[a..b];
    if b - a >= 1 { assert r[0] == s[a] && r[b - a - 1] == s[b - 1]; }
    if b - a >= 2 { assert r[1] == s[a + 1] && r[b - a - 2] == s[b - 2]; }
    if b - a >= 3 { assert r[2] == s[a + 2] && r[b - a - 3] == s[b - 3]; }
  }

  /** TrimSpace keeps the contiguous piece `s[i..i + |TrimSpace(s)|]`. */
  lemma TrimSpaceIsSlice(s: Bytes) returns (i: nat)
    ensures i + |TrimSpace(s)| <= |s| && TrimSpace(s) == s[i..i + |TrimSpace(s)|]
  {
    i := SkipSpaces(s, 0);
  }

  /** TrimSpace leaves no white space at either end, and leaves alone a string
      that has none. */
  lemma TrimSpaceTrims(s: Bytes)
    ensures NoSpaceAtEnds(TrimSpace(s))
    ensures NoSpaceAtEnds(s) ==> TrimSpace(s) == s
  {
    var i := SkipSpaces(s, 0);
    var k := DropSpaces(s, i, |s|);
    SpaceAtNarrower(s, i, |s|, k);
    SpaceInSlice(s, i, k);
    if NoSpaceAtEnds(s) {
      assert s[0..|s|] == s;
    }
  }

  // ---- Markdown fences ---------------------------------------------------

  /** "```" */
  function Fence(): Bytes { [96, 96, 96] }
  /** "```json" */
  function JsonFence(): Bytes { [96, 96, 96, 106, 115, 111, 110] }

  /** The cleaning applied to every model reply before JSON decoding
      (TrimSpace, TrimPrefix "```json", TrimPrefix "```", TrimSuffix "```"). */
  function StripFences(reply: Bytes): Bytes
  {
    StripMarks(TrimSpace(reply))
  }

  /** The fence-removal steps that follow TrimSpace. */
  function StripMarks(t: Bytes): Bytes
  {
    TrimSuffix(TrimPrefix(TrimPrefix(t, JsonFence()), Fence()), Fence())
  }

  lemma TrimPrefixIsSuffix(s: Bytes, p: Bytes)
    ensures TrimPrefix(s, p) == s[|s| - |TrimPrefix(s, p)|..]
  {
  }

  lemma TrimSuffixIsPrefix(s: Bytes, p: Bytes)
    ensures TrimSuffix(s, p) == s[..|TrimSuffix(s, p)|]
  {
  }

  /** A piece of a piece of `s` is a piece of `s`. */
  lemma SliceOfSlice<T>(s: seq<T>, t: seq<T>, u: seq<T>, i: nat, k: nat) returns (off: nat)
    requires i + |t| <= |s| && t == s[i..i + |t|]
    requires k + |u| <= |t| && u == t[k..k + |u|]
    ensures off == i + k && off + |u| <= |s| && u == s[off..off + |u|]
  {
    assert forall m :: 0 <= m < |u| ==> u[m] == t[k + m] == s[i + k + m];
    off := i + k;
  }

  lemma DropDrop(s: Bytes, m: nat, n: nat)
    requires m + n <= |s|
    ensures s[m..][n..] == s[m + n..]
  {
  }

  lemma DropTake(s: Bytes, m: nat, n: nat)
    requires m + n <= |s|
    ensures s[m..][..n] == s[m..m + n]
  {
  }

  /** Removing the fence marks keeps a contiguous piece, found at offset `k`. */
  lemma StripMarksIsSlice(t: Bytes) returns (k: nat)
    ensures k + |StripMarks(t)| <= |t| && StripMarks(t) == t[k..k + |StripMarks(t)|]
  {
    var a := TrimPrefix(t, JsonFence());
    var b := TrimPrefix(a, Fence());
    var c := TrimSuffix(b, Fence());
    TrimPrefixIsSuffix(t, JsonFence());
    TrimPrefixIsSuffix(a, Fence());
    TrimSuffixIsPrefix(b, Fence());
    var p, q := |t| - |a|, |a| - |b|;
    DropDrop(t, p, q);
    DropTake(t, p + q, |c|);
    k := p + q;
  }

  /** Removing the fence marks from a piece of `s` leaves a piece of `s`. */
  lemma StripMarksOfSlice(s: Bytes, t: Bytes, i: nat) returns (off: nat)
    requires i + |t| <= |s| && t == s[i..i + |t|]
    ensures off + |StripMarks(t)| <= |s| && StripMarks(t) == s[off..off + |StripMarks(t)|]
  {
    var k := StripMarksIsSlice(t);
    off := SliceOfSlice(s, t, StripMarks(t), i, k);
  }

  /** The cleaned reply is a contiguous piece of the reply, found at offset `off`. */
  lemma StripFencesShrinks(reply: Bytes) returns (off: nat)
    ensures off + |StripFences(reply)| <= |reply|
    ensures StripFences(reply) == reply[off..off + |StripFences(reply)|]
  {
    var i := TrimSpaceIsSlice(reply);
    off := StripMarksOfSlice(reply, TrimSpace(reply), i);
  }

  /** A reply without fences or surrounding white space is passed on unchanged. */
  lemma StripFencesUnfenced(reply: Bytes)
    requires NoSpaceAtEnds(reply)
    requires !HasPrefix(reply, Fence()) && !HasSuffix(reply, Fence())
    ensures StripFences(reply) == reply
  {
    TrimSpaceTrims(reply);
    assert !HasPrefix(reply, JsonFence()) by {
      if |reply| >= 7 { assert reply[..3] == reply[..7][..3]; }
    }
  }

  /** A JSON body wrapped in a "```json" fence comes out as the body itself, so
      decoding a fenced reply gives the same value as decoding the bare body. */
  lemma StripFencesJsonFenced(body: Bytes)
    requires body == [] || body[0] != 96
    ensures StripFences(JsonFence() + body + Fence()) == body
  {
    var s := JsonFence() + body + Fence();
    FencedHasNoSpaceAtEnds(s);
    TrimSpaceTrims(s);
    StripMarksJsonFenced(body);
  }

  /** A string that starts and ends with a backquote has no white space at
      either end. */
  lemma FencedHasNoSpaceAtEnds(s: Bytes)
    requires |s| >= 1 && s[0] == 96 && s[|s| - 1] == 96
    ensures NoSpaceAtEnds(s)
  {
  }

  lemma {:induction false} StripMarksJsonFenced(body: Bytes)
    requires body == [] || body[0] != 96
    ensures StripMarks(JsonFence() + body + Fence()) == body
  {
    var s := JsonFence() + body + Fence();
    assert HasPrefix(s, JsonFence()) && s[|JsonFence()|..] == body + Fence();
    var a := body + Fence();
    if body == [] {
      assert a == Fence();
      assert TrimPrefix(a, Fence()) == [];
    } else {
      assert a[0] == body[0];
      assert !HasPrefix(a, Fence());
      assert HasSuffix(a, Fence());
      assert a[..|a| - 3] == body;
    }
  }
}
