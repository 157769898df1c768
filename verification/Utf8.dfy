/** UTF-8 text as bytes: well-formedness after section 4 of RFC 3629, and the
    character boundaries at which text may be cut. */
module Utf8 {

  type Byte = b: int | 0 <= b < 256

  predicate Continuation(b: Byte) { 0x80 <= b < 0xC0 }

  /** Bytes of the character that starts with `b`; zero if none does. */
  function Width(b: Byte): nat {
    if b < 0x80 then 1
    else if 0xC2 <= b < 0xE0 then 2
    else if 0xE0 <= b < 0xF0 then 3
    else if 0xF0 <= b < 0xF5 then 4
    else 0
  }

  /** No overlong form, no surrogate, nothing above U+10FFFF. */
  predicate SecondByte(lead: Byte, b: Byte) {
    && Continuation(b)
    && (lead == 0xE0 ==> 0xA0 <= b)
    && (lead == 0xED ==> b < 0xA0)
    && (lead == 0xF0 ==> 0x90 <= b)
    && (lead == 0xF4 ==> b < 0x90)
  }

  predicate StartsChar(s: seq<Byte>) {
    && s != []
    && var w := Width(s[0]);
    && 1 <= w <= |s|
    && (w > 1 ==> SecondByte(s[0], s[1]))
    && (w > 2 ==> Continuation(s[2]))
    && (w > 3 ==> Continuation(s[3]))
  }

  predicate Valid(s: seq<Byte>) {
    s == [] || (StartsChar(s) && Valid(s[Width(s[0])..]))
  }

  predicate Boundary(s: seq<Byte>, i: nat) {
    i == 0 || i == |s| || (i < |s| && !Continuation(s[i]))
  }

  lemma Slices(s: seq<Byte>, w: nat, i: nat)
    requires w <= i <= |s|
    ensures s[w..][..i - w] == s[..i][w..] && s[w..][i - w..] == s[i..]
    ensures forall k :: 0 <= k < i ==> s[..i][k] == s[k]
  {
  }

  /** Cutting at a boundary leaves two texts. */
  lemma {:induction false} CutAtBoundary(s: seq<Byte>, i: nat)
    requires Valid(s) && i <= |s| && Boundary(s, i)
    ensures Valid(s[..i]) && Valid(s[i..])
    decreases |s|
  {
    if 0 < i < |s| {
      var w := Width(s[0]);
      assert i >= w;
      CutAtBoundary(s[w..], i - w);
      Slices(s, w, i);
    } else {
      assert s[..i] == s || s[i..] == s;
    }
  }

  /** A boundary lies at most three bytes back. */
  lemma {:induction false} BoundaryNear(s: seq<Byte>, i: nat) returns (b: nat)
    requires Valid(s) && i <= |s|
    ensures b <= i <= b + 3 && Boundary(s, b)
    decreases |s|
  {
    if i == 0 || i == |s| {
      b := i;
    } else {
      var w := Width(s[0]);
      if i < w {
        b := 0;
      } else {
        var c := BoundaryNear(s[w..], i - w);
        b := c + w;
        if c < |s| - w { assert s[w..][c] == s[b]; }
        assert Valid(s[w..]);
      }
    }
  }

  // ----- what the bytes stand for -----

  ghost predicate Scalar(c: int) { 0 <= c < 0x11_0000 && !(0xD800 <= c < 0xE000) }

  /** The bytes of one character, after section 3 of RFC 3629. */
  ghost function Code(c: int): seq<Byte>
    requires Scalar(c)
  {
    if c < 0x80 then [c]
    else if c < 0x800 then [0xC0 + c / 64, 0x80 + c % 64]
    else if c < 0x1_0000 then [0xE0 + c / 4096, 0x80 + c / 64 % 64, 0x80 + c % 64]
    else [0xF0 + c / 262144, 0x80 + c / 4096 % 64, 0x80 + c / 64 % 64, 0x80 + c % 64]
  }

  ghost function Text(cs: seq<int>): seq<Byte>
    requires forall i :: 0 <= i < |cs| ==> Scalar(cs[i])
  {
    if cs == [] then [] else Code(cs[0]) + Text(cs[1..])
  }

  lemma CodeStarts(c: int, rest: seq<Byte>)
    requires Scalar(c)
    ensures StartsChar(Code(c) + rest) && Width((Code(c) + rest)[0]) == |Code(c)|
  {
  }

  lemma Digits3(x: int, y: int, z: int)
    requires 0 <= x && 0 <= y < 64 && 0 <= z < 64
    ensures var c := x * 4096 + y * 64 + z;
            c / 4096 == x && c / 64 % 64 == y && c % 64 == z && c / 64 == x * 64 + y
  {
  }

  lemma Read2(a: int, b: int) returns (c: int)
    requires 0xC2 <= a < 0xE0 && 0x80 <= b < 0xC0
    ensures Scalar(c) && Code(c) == [a, b]
  {
    c := (a - 0xC0) * 64 + (b - 0x80);
  }

  lemma Read3(a: int, b: int, d: int) returns (c: int)
    requires 0xE0 <= a < 0xF0 && 0x80 <= b < 0xC0 && SecondByte(a, b) && 0x80 <= d < 0xC0
    ensures Scalar(c) && Code(c) == [a, b, d]
  {
    c := (a - 0xE0) * 4096 + (b - 0x80) * 64 + (d - 0x80);
    Digits3(a - 0xE0, b - 0x80, d - 0x80);
  }

  lemma Read4(a: int, b: int, d: int, e: int) returns (c: int)
    requires 0xF0 <= a < 0xF5 && 0x80 <= b < 0xC0 && SecondByte(a, b) && 0x80 <= d < 0xC0 && 0x80 <= e < 0xC0
    ensures Scalar(c) && Code(c) == [a, b, d, e]
  {
    c := (a - 0xF0) * 262144 + (b - 0x80) * 4096 + (d - 0x80) * 64 + (e - 0x80);
    Digits3((a - 0xF0) * 64 + (b - 0x80), d - 0x80, e - 0x80);
  }

  lemma CharIsCode(s: seq<Byte>) returns (c: int)
    requires StartsChar(s)
    ensures Scalar(c) && Code(c) == s[..Width(s[0])]
  {
    match Width(s[0]) {
      case 1 => c := s[0];
      case 2 => c := Read2(s[0], s[1]);
      case 3 => c := Read3(s[0], s[1], s[2]);
      case _ => c := Read4(s[0], s[1], s[2], s[3]);
    }
  }

  /** Every list of characters is written as valid text. */
  lemma {:induction false} TextIsValid(cs: seq<int>)
    requires forall i :: 0 <= i < |cs| ==> Scalar(cs[i])
    ensures Valid(Text(cs))
    decreases |cs|
  {
    if cs != [] {
      TextIsValid(cs[1..]);
      CodeStarts(cs[0], Text(cs[1..]));
      assert (Code(cs[0]) + Text(cs[1..]))[|Code(cs[0])|..] == Text(cs[1..]);
    }
  }

  /** And all valid text is such a list. */
  lemma {:induction false} ValidIsText(s: seq<Byte>) returns (cs: seq<int>)
    requires Valid(s)
    ensures (forall i :: 0 <= i < |cs| ==> Scalar(cs[i])) && Text(cs) == s
    decreases |s|
  {
    if s == [] {
      cs := [];
    } else {
      var w := Width(s[0]);
      var c := CharIsCode(s);
      var rest := ValidIsText(s[w..]);
      cs := [c] + rest;
      assert cs[1..] == rest && s == s[..w] + s[w..];
    }
  }
}
