/**
  bytes.decode('utf-8', errors='ignore'), which decode_issue applies to byte values.
  Well-formed sequences follow the UTF-8 table of RFC 3629, section 4 (no overlong
  forms, no surrogates, nothing above U+10FFFF); every other byte is dropped.
 */
module Utf8 {

  newtype byte = b: int | 0 <= b < 256

  predicate IsContinuation(b: byte) {
    0x80 <= b <= 0xBF
  }

  /**
    Length of the well-formed UTF-8 sequence that b starts with, or 0 when b does
    not start with one.
   */
  function SequenceLength(b: seq<byte>): (n: nat)
    ensures n <= 4 && n <= |b|
    ensures b != [] && b[0] < 0x80 ==> n == 1
  {
    if b == [] then 0
    else
      var b0 := b[0];
      if b0 < 0x80 then 1
      else if 0xC2 <= b0 <= 0xDF then
        if |b| >= 2 && IsContinuation(b[1]) then 2 else 0
      else if 0xE0 <= b0 <= 0xEF then
        var lo: byte := if b0 == 0xE0 then 0xA0 else 0x80;
        var hi: byte := if b0 == 0xED then 0x9F else 0xBF;
        if |b| >= 3 && lo <= b[1] <= hi && IsContinuation(b[2]) then 3 else 0
      else if 0xF0 <= b0 <= 0xF4 then
        var lo: byte := if b0 == 0xF0 then 0x90 else 0x80;
        var hi: byte := if b0 == 0xF4 then 0x8F else 0xBF;
        if |b| >= 4 && lo <= b[1] <= hi && IsContinuation(b[2]) && IsContinuation(b[3]) then 4 else 0
      else 0
  }

  /** The Unicode scalar value a well-formed sequence encodes. */
  function CodePoint(b: seq<byte>): (cp: int)
    requires SequenceLength(b) > 0
    ensures 0 <= cp < 0xD800 || 0xE000 <= cp <= 0x10FFFF
  {
    var n := SequenceLength(b);
    if n == 1 then b[0] as int
    else if n == 2 then (b[0] as int - 0xC0) * 64 + (b[1] as int - 0x80)
    else if n == 3 then (b[0] as int - 0xE0) * 4096 + (b[1] as int - 0x80) * 64 + (b[2] as int - 0x80)
    else (b[0] as int - 0xF0) * 262144 + (b[1] as int - 0x80) * 4096 + (b[2] as int - 0x80) * 64 + (b[3] as int - 0x80)
  }

  /**
    bytes.decode('utf-8', errors='ignore'). A byte that does not start a well-formed
    sequence is skipped on its own; the bytes after it are decoded afresh. This gives
    the same text as skipping the maximal ill-formed subpart, because every byte of
    such a subpart after its first is a continuation byte, which cannot start a
    sequence either.
   */
  function DecodeIgnore(b: seq<byte>): (s: string)
    ensures |s| <= |b|
    decreases |b|
  {
    if b == [] then ""
    else
      var n := SequenceLength(b);
      if n == 0 then DecodeIgnore(b[1..])
      else [CodePoint(b) as char] + DecodeIgnore(b[n..])
  }

  /** The UTF-8 encoding of one character (str.encode('utf-8')). */
  function EncodeChar(c: char): (b: seq<byte>)
    ensures 1 <= |b| <= 4
  {
    var cp := c as int;
    if cp < 0x80 then [cp as byte]
    else if cp < 0x800 then [(0xC0 + cp / 64) as byte, (0x80 + cp % 64) as byte]
    else if cp < 0x10000 then
      [(0xE0 + cp / 4096) as byte, (0x80 + (cp / 64) % 64) as byte, (0x80 + cp % 64) as byte]
    else
      [(0xF0 + cp / 262144) as byte, (0x80 + (cp / 4096) % 64) as byte,
       (0x80 + (cp / 64) % 64) as byte, (0x80 + cp % 64) as byte]
  }

  /** str.encode('utf-8'), the inverse the decoder is checked against. */
  function Encode(s: string): seq<byte>
  {
    if s == [] then [] else EncodeChar(s[0]) + Encode(s[1..])
  }

  // ---------------------------------------------------------------------------
  // Lemmas
  // ---------------------------------------------------------------------------

  /** The base-64 digits the encoder and the decoder split a code point into. */
  lemma Digits64(cp: int)
    requires 0 <= cp
    ensures cp == (cp / 64) * 64 + cp % 64 && 0 <= cp % 64 < 64
    ensures cp / 64 == (cp / 4096) * 64 + (cp / 64) % 64 && 0 <= (cp / 64) % 64 < 64
    ensures cp / 4096 == (cp / 262144) * 64 + (cp / 4096) % 64 && 0 <= (cp / 4096) % 64 < 64
  {
  }

  /** A well-formed sequence is read as one sequence and decodes to its character. */
  lemma DecodeEncodeChar(c: char, rest: seq<byte>)
    ensures DecodeIgnore(EncodeChar(c) + rest) == [c] + DecodeIgnore(rest)
  {
    var cp := c as int;
    var e := EncodeChar(c);
    var b := e + rest;
    Digits64(cp);
    assert b[..|e|] == e;
    if cp < 0x80 {
      assert SequenceLength(b) == 1;
    } else if cp < 0x800 {
      assert b[0] == (0xC0 + cp / 64) as byte && b[1] == (0x80 + cp % 64) as byte;
      assert SequenceLength(b) == 2;
      assert CodePoint(b) == cp;
    } else if cp < 0x10000 {
      assert b[0] == (0xE0 + cp / 4096) as byte;
      assert b[1] == (0x80 + (cp / 64) % 64) as byte;
      assert b[2] == (0x80 + cp % 64) as byte;
      assert SequenceLength(b) == 3;
      assert CodePoint(b) == cp;
    } else {
      assert b[0] == (0xF0 + cp / 262144) as byte;
      assert b[1] == (0x80 + (cp / 4096) % 64) as byte;
      assert b[2] == (0x80 + (cp / 64) % 64) as byte;
      assert b[3] == (0x80 + cp % 64) as byte;
      assert SequenceLength(b) == 4;
      assert CodePoint(b) == cp;
    }
    assert b[|e|..] == rest;
  }

  /** Decoding gives back every text that was encoded: nothing valid is dropped. */
  lemma {:induction false} DecodeEncode(s: string)
    ensures DecodeIgnore(Encode(s)) == s
  {
    if s != [] {
      DecodeEncodeChar(s[0], Encode(s[1..]));
      DecodeEncode(s[1..]);
      assert s == [s[0]] + s[1..];
    }
  }

  /**
    Every sequence the decoder accepts is the canonical encoding of the character it
    decodes to, so an overlong form, an encoded surrogate or a value above U+10FFFF
    is never read as a character.
   */
  lemma SequenceIsEncoding(b: seq<byte>)
    requires SequenceLength(b) > 0
    ensures EncodeChar(CodePoint(b) as char) == b[..SequenceLength(b)]
  {
    var n := SequenceLength(b);
    if n == 2 {
      TwoByteEncoding(b);
    } else if n == 3 {
      ThreeByteEncoding(b);
    } else if n == 4 {
      FourByteEncoding(b);
    }
  }

  lemma TwoByteEncoding(b: seq<byte>)
    requires SequenceLength(b) == 2
    ensures EncodeChar(CodePoint(b) as char) == b[..2]
  {
    var cp := CodePoint(b);
    assert cp == (b[0] as int - 0xC0) * 64 + (b[1] as int - 0x80);
    assert 0x80 <= cp < 0x800;
    assert cp / 64 == b[0] as int - 0xC0 && cp % 64 == b[1] as int - 0x80;
  }

  lemma ThreeByteEncoding(b: seq<byte>)
    requires SequenceLength(b) == 3
    ensures EncodeChar(CodePoint(b) as char) == b[..3]
  {
    var cp := CodePoint(b);
    var d0, d1, d2 := b[0] as int - 0xE0, b[1] as int - 0x80, b[2] as int - 0x80;
    assert 0 <= d0 < 16 && 0 <= d1 < 64 && 0 <= d2 < 64;
    assert d0 == 0 ==> d1 >= 0x20;
    assert cp == (d0 * 64 + d1) * 64 + d2;
    assert 0x800 <= cp < 0x10000;
    SplitDigit(d0 * 64 + d1, d2);
    SplitDigit(d0, d1);
    Digits64(cp);
  }

  lemma FourByteEncoding(b: seq<byte>)
    requires SequenceLength(b) == 4
    ensures EncodeChar(CodePoint(b) as char) == b[..4]
  {
    var cp := CodePoint(b);
    var d0, d1, d2, d3 := b[0] as int - 0xF0, b[1] as int - 0x80, b[2] as int - 0x80, b[3] as int - 0x80;
    assert 0 <= d0 < 5 && 0 <= d1 < 64 && 0 <= d2 < 64 && 0 <= d3 < 64;
    assert cp == ((d0 * 64 + d1) * 64 + d2) * 64 + d3;
    assert 0x10000 <= cp;
    SplitDigit((d0 * 64 + d1) * 64 + d2, d3);
    SplitDigit(d0 * 64 + d1, d2);
    SplitDigit(d0, d1);
    Digits64(cp);
  }

  /** Appending one base-64 digit lo to hi can be undone by division and remainder. */
  lemma SplitDigit(hi: int, lo: int)
    requires 0 <= hi && 0 <= lo < 64
    ensures (hi * 64 + lo) / 64 == hi && (hi * 64 + lo) % 64 == lo
  {
  }

  /** x can be obtained from y by deleting bytes. */
  predicate IsSubsequence(x: seq<byte>, y: seq<byte>)
    decreases |y|
  {
    x == [] || (y != [] && ((x[0] == y[0] && IsSubsequence(x[1..], y[1..])) || IsSubsequence(x, y[1..])))
  }

  lemma {:induction false} SubsequenceAfterPrefix(p: seq<byte>, x: seq<byte>, y: seq<byte>)
    requires IsSubsequence(x, y)
    ensures IsSubsequence(p + x, p + y)
    decreases |p|
  {
    if p != [] {
      SubsequenceAfterPrefix(p[1..], x, y);
      assert (p + x)[0] == p[0] == (p + y)[0];
      assert (p + x)[1..] == p[1..] + x;
      assert (p + y)[1..] == p[1..] + y;
    } else {
      assert p + x == x && p + y == y;
    }
  }

  /**
    The decoder only deletes bytes: re-encoding its text gives a subsequence of the
    input, every character coming from a canonical sequence that was there.
   */
  lemma {:induction false} DecodeOnlyDrops(b: seq<byte>)
    ensures IsSubsequence(Encode(DecodeIgnore(b)), b)
    decreases |b|
  {
    if b != [] {
      var n := SequenceLength(b);
      if n == 0 {
        DecodeOnlyDrops(b[1..]);
      } else {
        DecodeOnlyDrops(b[n..]);
        var c := CodePoint(b) as char;
        var t := DecodeIgnore(b[n..]);
        var s := DecodeIgnore(b);
        assert s == [c] + t;
        assert s[0] == c && s[1..] == t;
        assert Encode(s) == EncodeChar(c) + Encode(t);
        SequenceIsEncoding(b);
        SubsequenceAfterPrefix(b[..n], Encode(t), b[n..]);
        assert b[..n] + b[n..] == b;
      }
    }
  }

  /**
    Ill-formed sequences that start with a byte that could lead one are dropped: the
    overlong E0 80 80, the surrogate ED A0 80 and F4 90 80 80, which lies above
    U+10FFFF, all decode to nothing.
   */
  lemma IllFormedSequencesDropped()
    ensures DecodeIgnore([0xE0, 0x80, 0x80]) == ""
    ensures DecodeIgnore([0xED, 0xA0, 0x80]) == ""
    ensures DecodeIgnore([0xF4, 0x90, 0x80, 0x80]) == ""
  {
    var o: seq<byte> := [0xE0, 0x80, 0x80];
    assert SequenceLength(o) == 0 && SequenceLength(o[1..]) == 0 && SequenceLength(o[2..]) == 0;
    assert o[1..][1..] == o[2..] && o[2..][1..] == [];
    var h: seq<byte> := [0xED, 0xA0, 0x80];
    assert SequenceLength(h) == 0 && SequenceLength(h[1..]) == 0 && SequenceLength(h[2..]) == 0;
    assert h[1..][1..] == h[2..] && h[2..][1..] == [];
    var f: seq<byte> := [0xF4, 0x90, 0x80, 0x80];
    assert SequenceLength(f) == 0 && SequenceLength(f[1..]) == 0;
    assert SequenceLength(f[2..]) == 0 && SequenceLength(f[3..]) == 0;
    assert f[1..][1..] == f[2..] && f[2..][1..] == f[3..] && f[3..][1..] == [];
  }

  /** A byte that cannot start a well-formed sequence is dropped, not replaced. */
  lemma InvalidLeadDropped(b0: byte, rest: seq<byte>)
    requires IsContinuation(b0) || b0 == 0xC0 || b0 == 0xC1 || b0 >= 0xF5
    ensures DecodeIgnore([b0] + rest) == DecodeIgnore(rest)
  {
    assert ([b0] + rest)[1..] == rest;
  }

  /** Continuation bytes that no lead byte claims are dropped one by one. */
  lemma {:induction false} ContinuationsDropped(cs: seq<byte>, rest: seq<byte>)
    requires forall i :: 0 <= i < |cs| ==> IsContinuation(cs[i])
    ensures DecodeIgnore(cs + rest) == DecodeIgnore(rest)
    decreases |cs|
  {
    if cs == [] {
      assert cs + rest == rest;
    } else {
      assert cs + rest == [cs[0]] + (cs[1..] + rest);
      InvalidLeadDropped(cs[0], cs[1..] + rest);
      ContinuationsDropped(cs[1..], rest);
    }
  }

  /**
    A sequence cut short (a valid lead byte and fewer continuation bytes than it
    announces, followed by the end of the input or a byte that is not a
    continuation) is dropped as a whole, and whatever follows is decoded afresh.
   */
  lemma {:induction false} TruncatedSequenceDropped(c: char, k: nat, rest: seq<byte>)
    requires 1 <= k < |EncodeChar(c)|
    requires rest == [] || !IsContinuation(rest[0])
    ensures DecodeIgnore(EncodeChar(c)[..k] + rest) == DecodeIgnore(rest)
  {
    var cp := c as int;
    var e := EncodeChar(c);
    var b := e[..k] + rest;
    Digits64(cp);
    assert b[0] == e[0];
    assert forall i :: 1 <= i < |e| ==> IsContinuation(e[i]);
    assert |b| > k ==> b[k] == rest[0];
    if |e| == 2 {
      assert 0xC2 <= b[0] <= 0xDF;
    } else if |e| == 3 {
      assert 0xE0 <= b[0] <= 0xEF;
    } else {
      assert 0xF0 <= b[0] <= 0xF4;
    }
    assert SequenceLength(b) == 0;
    assert b[1..] == e[1..k] + rest;
    ContinuationsDropped(e[1..k], rest);
  }

  /** E2 41 42: the lead byte E2 is cut short by 'A', so only "AB" is decoded. */
  lemma TruncatedThenAscii()
    ensures DecodeIgnore([0xE2, 0x41, 0x42]) == "AB"
  {
    var b: seq<byte> := [0xE2, 0x41, 0x42];
    assert SequenceLength(b) == 0;
    assert b[1..] == [0x41, 0x42];
    DecodeAscii(b[1..]);
  }

  /** ASCII bytes decode to the same characters, one for one. */
  lemma {:induction false} DecodeAscii(b: seq<byte>)
    requires forall i :: 0 <= i < |b| ==> b[i] < 0x80
    ensures |DecodeIgnore(b)| == |b|
    ensures forall i :: 0 <= i < |b| ==> DecodeIgnore(b)[i] as int == b[i] as int
  {
    if b != [] {
      DecodeAscii(b[1..]);
      assert SequenceLength(b) == 1;
    }
  }

  /** "caf\xc3\xa9" followed by a stray 0xff and a truncated "\xe2\x82" decodes to "café". */
  lemma DecodeIgnoreExample()
    ensures DecodeIgnore([0x63, 0x61, 0x66, 0xC3, 0xA9, 0xFF, 0xE2, 0x82]) == "caf\U{E9}"
  {
    var b: seq<byte> := [0x63, 0x61, 0x66, 0xC3, 0xA9, 0xFF, 0xE2, 0x82];
    assert SequenceLength(b[7..]) == 0;
    assert DecodeIgnore(b[7..]) == "";
    assert SequenceLength(b[6..]) == 0;
    assert DecodeIgnore(b[6..]) == "";
    assert DecodeIgnore(b[5..]) == "";
    assert SequenceLength(b[3..]) == 2 && CodePoint(b[3..]) == 0xE9;
    assert b[3..][2..] == b[5..];
    assert DecodeIgnore(b[3..]) == "\U{E9}";
    assert DecodeIgnore(b[2..]) == "f\U{E9}";
    assert DecodeIgnore(b[1..]) == "af\U{E9}";
  }
}
