/** Well-formed UTF-8 by section 4 of RFC 3629, and truncation at a character boundary. */
module Utf8 {

  newtype Byte = b: int | 0 <= b < 256

  predicate InSpan(b: Byte, lo: Byte, hi: Byte) {
    lo <= b <= hi
  }

  predicate IsTail(b: Byte) {
    InSpan(b, 0x80, 0xBF)
  }

  /** Length of the well-formed character at the start of `s`, or zero. */
  function CharLength(s: seq<Byte>): (n: nat)
    ensures n <= 4 && n <= |s|
  {
    if |s| >= 1 && InSpan(s[0], 0x00, 0x7F) then 1
    else if |s| >= 2 && InSpan(s[0], 0xC2, 0xDF) && IsTail(s[1]) then 2
    else if |s| >= 3 && IsTail(s[2]) &&
            ((s[0] == 0xE0 && InSpan(s[1], 0xA0, 0xBF)) ||
             (InSpan(s[0], 0xE1, 0xEC) && IsTail(s[1])) ||
             (s[0] == 0xED && InSpan(s[1], 0x80, 0x9F)) ||
             (InSpan(s[0], 0xEE, 0xEF) && IsTail(s[1]))) then 3
    else if |s| >= 4 && IsTail(s[2]) && IsTail(s[3]) &&
            ((s[0] == 0xF0 && InSpan(s[1], 0x90, 0xBF)) ||
             (InSpan(s[0], 0xF1, 0xF3) && IsTail(s[1])) ||
             (s[0] == 0xF4 && InSpan(s[1], 0x80, 0x8F))) then 4
    else 0
  }

  predicate Valid(s: seq<Byte>)
    decreases |s|
  {
    s == [] || (CharLength(s) > 0 && Valid(s[CharLength(s)..]))
  }

  // ---------- validity by section 4 is being an encoding by section 3 ----------

  /** A Unicode scalar value: no surrogate. */
  predicate IsScalar(cp: nat) {
    cp < 0xD800 || 0xE000 <= cp < 0x11_0000
  }

  /** The encoding of one scalar value by the table of section 3. */
  function Encode(cp: nat): (r: seq<Byte>)
    requires IsScalar(cp)
    ensures 1 <= |r| <= 4
  {
    if cp < 0x80 then [cp as Byte]
    else if cp < 0x800 then [(0xC0 + cp / 0x40) as Byte, TailByte(cp)]
    else if cp < 0x1_0000 then [(0xE0 + cp / 0x40 / 0x40) as Byte, TailByte(cp / 0x40), TailByte(cp)]
    else [(0xF0 + cp / 0x40 / 0x40 / 0x40) as Byte, TailByte(cp / 0x40 / 0x40), TailByte(cp / 0x40), TailByte(cp)]
  }

  function TailByte(n: nat): Byte {
    (0x80 + n % 0x40) as Byte
  }

  function EncodeAll(cps: seq<nat>): seq<Byte>
    requires forall i :: 0 <= i < |cps| ==> IsScalar(cps[i])
  {
    if cps == [] then [] else Encode(cps[0]) + EncodeAll(cps[1..])
  }

  lemma {:induction false} EncodingIsChar(cp: nat, rest: seq<Byte>)
    requires IsScalar(cp)
    ensures CharLength(Encode(cp) + rest) == |Encode(cp)|
  {
    var code := Encode(cp);
    OwnLength(cp);
    assert (code + rest)[..|code|] == code == code[..|code|];
    CharLengthLocal(code, code + rest);
  }

  lemma {:induction false} OwnLength(cp: nat)
    requires IsScalar(cp)
    ensures CharLength(Encode(cp)) == |Encode(cp)|
  {
    if 0x800 <= cp < 0x1_0000 {
      ThreeBytes(cp);
    } else if 0x1_0000 <= cp {
      FourBytes(cp);
    }
  }

  lemma {:induction false} ThreeBytes(cp: nat)
    requires IsScalar(cp) && 0x800 <= cp < 0x1_0000
    ensures CharLength(Encode(cp)) == 3
  {
    var a, b := cp / 0x40 / 0x40, cp / 0x40 % 0x40;
    assert a == 0 ==> b >= 0x20;
    assert a == 0xD ==> b < 0x20;
  }

  lemma {:induction false} FourBytes(cp: nat)
    requires 0x1_0000 <= cp < 0x11_0000
    ensures CharLength(Encode(cp)) == 4
  {
    FourParts(cp);
    var first := (0xF0 + cp / 0x40 / 0x40 / 0x40) as Byte;
    LengthOfFour(first, TailByte(cp / 0x40 / 0x40), TailByte(cp / 0x40), TailByte(cp));
  }

  lemma {:induction false} FourParts(cp: nat)
    requires 0x1_0000 <= cp < 0x11_0000
    ensures var b := cp / 0x40 / 0x40;
            b / 0x40 <= 4 && (b / 0x40 == 0 ==> b % 0x40 >= 0x10) && (b / 0x40 == 4 ==> b % 0x40 < 0x10)
  {
    assert 0x10 <= cp / 0x40 / 0x40 < 0x110;
  }

  lemma {:induction false} LengthOfFour(a: Byte, b: Byte, c: Byte, d: Byte)
    requires 0xF0 <= a <= 0xF4 && IsTail(b) && IsTail(c) && IsTail(d)
    requires (a == 0xF0 ==> 0x90 <= b) && (a == 0xF4 ==> b <= 0x8F)
    ensures CharLength([a, b, c, d]) == 4
  {}

  lemma {:induction false} CharIsEncoding(s: seq<Byte>) returns (cp: nat)
    requires CharLength(s) > 0
    ensures IsScalar(cp) && Encode(cp) == s[..CharLength(s)]
  {
    var n := CharLength(s);
    if n == 1 {
      cp := s[0] as nat;
    } else if n == 2 {
      cp := (s[0] as nat - 0xC0) * 0x40 + (s[1] as nat - 0x80);
    } else if n == 3 {
      cp := CharOfThree(s[0], s[1], s[2]);
    } else {
      cp := CharOfFour(s[0], s[1], s[2], s[3]);
    }
  }

  /** Six more bits. */
  lemma {:induction false} Append(high: nat, low: nat) returns (n: nat)
    requires low < 0x40
    ensures n == high * 0x40 + low && n / 0x40 == high && n % 0x40 == low
  {
    n := high * 0x40 + low;
  }

  lemma {:induction false} CharOfThree(a: Byte, b: Byte, c: Byte) returns (cp: nat)
    requires 0xE0 <= a <= 0xEF && IsTail(b) && IsTail(c) && (a == 0xE0 ==> 0xA0 <= b) && (a == 0xED ==> b <= 0x9F)
    ensures IsScalar(cp) && Encode(cp) == [a, b, c]
  {
    var x, y, z := a as nat - 0xE0, b as nat - 0x80, c as nat - 0x80;
    var high := Append(x, y);
    cp := Append(high, z);
  }

  lemma {:induction false} CharOfFour(a: Byte, b: Byte, c: Byte, d: Byte) returns (cp: nat)
    requires 0xF0 <= a <= 0xF4 && IsTail(b) && IsTail(c) && IsTail(d)
    requires (a == 0xF0 ==> 0x90 <= b) && (a == 0xF4 ==> b <= 0x8F)
    ensures IsScalar(cp) && Encode(cp) == [a, b, c, d]
  {
    var w, x, y, z := a as nat - 0xF0, b as nat - 0x80, c as nat - 0x80, d as nat - 0x80;
    var high := Append(w, x);
    var middle := Append(high, y);
    cp := Append(middle, z);
  }

  /** Whatever is an encoding of scalar values is valid. */
  lemma {:induction false} EncodingsAreValid(cps: seq<nat>)
    requires forall i :: 0 <= i < |cps| ==> IsScalar(cps[i])
    ensures Valid(EncodeAll(cps))
  {
    if cps != [] {
      var first, rest := Encode(cps[0]), EncodeAll(cps[1..]);
      EncodingsAreValid(cps[1..]);
      EncodingIsChar(cps[0], rest);
      assert (first + rest)[|first|..] == rest;
    }
  }

  /** Whatever is valid encodes scalar values. */
  lemma {:induction false} ValidIsEncoding(s: seq<Byte>) returns (cps: seq<nat>)
    requires Valid(s)
    ensures (forall i :: 0 <= i < |cps| ==> IsScalar(cps[i])) && EncodeAll(cps) == s
    decreases |s|
  {
    if s == [] {
      cps := [];
    } else {
      var n := CharLength(s);
      var cp := CharIsEncoding(s);
      var more := ValidIsEncoding(s[n..]);
      cps := [cp] + more;
      assert cps[1..] == more && s[..n] + s[n..] == s;
    }
  }

  // ---------- truncation ----------

  /** A character is recognised from its own bytes alone. */
  lemma {:induction false} CharLengthLocal(s: seq<Byte>, t: seq<Byte>)
    requires CharLength(s) > 0 && |t| >= CharLength(s) && t[..CharLength(s)] == s[..CharLength(s)]
    ensures CharLength(t) == CharLength(s)
  {
    var n := CharLength(s);
    assert forall i :: 0 <= i < n ==> t[..n][i] == s[..n][i];
    assert forall i :: 0 <= i < n ==> t[i] == s[i];
  }

  /** Every valid text has a valid prefix within three bytes of any cut. */
  lemma {:induction false} BoundaryNear(s: seq<Byte>, cut: nat) returns (m: nat)
    requires Valid(s) && cut <= |s|
    ensures m <= cut <= m + 3 && Valid(s[..m])
    decreases |s|
  {
    var n := CharLength(s);
    if s == [] || cut < n {
      m := 0;
    } else {
      var k := BoundaryNear(s[n..], cut - n);
      m := n + k;
      var t := s[..m];
      assert t[..n] == s[..n];
      CharLengthLocal(s, t);
      assert t[n..] == s[n..][..k];
    }
  }

  /** An over-budget text becomes the longest valid prefix of its first `budget` bytes; of
      a valid text at most three of those bytes are lost. */
  ghost predicate IsTruncation(r: seq<Byte>, s: seq<Byte>, budget: nat) {
    if |s| <= budget then r == s
    else
      r <= s && |r| <= budget && Valid(r) &&
      (forall n :: |r| < n <= budget ==> !Valid(s[..n])) &&
      (Valid(s) ==> |r| + 3 >= budget)
  }

  method Truncate(s: seq<Byte>, budget: nat) returns (r: seq<Byte>)
    ensures IsTruncation(r, s, budget)
  {
    r := s;
    if |r| > budget {
      r := r[..budget];
      while |r| > 0 && !Valid(r)
        invariant |r| <= budget && r == s[..|r|]
        invariant forall n :: |r| < n <= budget ==> !Valid(s[..n])
        decreases |r|
      {
        r := r[..|r| - 1];
      }
      if Valid(s) {
        var m := BoundaryNear(s, budget);
        assert Valid(s[..m]);
      }
    }
  }
}
