/** The nickname rule over bytes, and its meaning over characters in UTF-8 (section 3 of RFC 3629). */
module Nickname {
  import opened Bytes

  predicate IsScalar(cp: int) {
    0 <= cp <= 0x10FFFF && !(0xD800 <= cp <= 0xDFFF)
  }

  function EncodeOne(cp: int): (bytes: seq<Byte>)
    requires IsScalar(cp)
    ensures 1 <= |bytes| <= 4
  {
    if cp < 0x80 then [cp]
    else if cp < 0x800 then [0xC0 + cp / 64, 0x80 + cp % 64]
    else if cp < 0x10000 then [0xE0 + cp / 4096, 0x80 + cp / 64 % 64, 0x80 + cp % 64]
    else [0xF0 + cp / 262144, 0x80 + cp / 4096 % 64, 0x80 + cp / 64 % 64, 0x80 + cp % 64]
  }

  ghost predicate AllScalar(cps: seq<int>) {
    forall i :: 0 <= i < |cps| ==> IsScalar(cps[i])
  }

  ghost function Encode(cps: seq<int>): seq<Byte>
    requires AllScalar(cps)
  {
    if cps == [] then [] else EncodeOne(cps[0]) + Encode(cps[1..])
  }

  predicate IsLatinLetter(c: int) {
    0x61 <= c <= 0x7A || 0x41 <= c <= 0x5A
  }

  predicate IsDigit(c: int) {
    0x30 <= c <= 0x39
  }

  predicate IsUnderscore(c: int) {
    c == 0x5F
  }

  // The Russian letters: both cases of the alphabet and of the letter yo.
  predicate IsCyrillic(cp: int) {
    cp == 0x401 || 0x410 <= cp <= 0x44F || cp == 0x451
  }

  predicate Allowed(cp: int) {
    IsLatinLetter(cp) || IsDigit(cp) || IsUnderscore(cp) || IsCyrillic(cp)
  }

  ghost predicate AllAllowed(cps: seq<int>) {
    forall i :: 0 <= i < |cps| ==> Allowed(cps[i])
  }

  lemma AllowedIsScalar(cps: seq<int>)
    requires AllAllowed(cps)
    ensures AllScalar(cps)
  {
    forall i | 0 <= i < |cps| ensures IsScalar(cps[i]) {
      assert Allowed(cps[i]);
    }
  }

  // ----- The encoding can be read in one way only

  lemma PrefixFree(a: int, b: int, s: seq<Byte>, t: seq<Byte>)
    requires IsScalar(a) && IsScalar(b) && EncodeOne(a) + s == EncodeOne(b) + t
    ensures a == b && s == t
  {
    var x, y := EncodeOne(a), EncodeOne(b);
    assert (x + s)[0] == x[0] && (y + t)[0] == y[0];
    assert |x| == |y|;
    assert x == (x + s)[..|x|] == (y + t)[..|y|] == y;
    assert s == (x + s)[|x|..] == (y + t)[|y|..] == t;
    SameBytes(a, b);
  }

  lemma SameBytes(a: int, b: int)
    requires IsScalar(a) && IsScalar(b) && EncodeOne(a) == EncodeOne(b)
    ensures a == b
  {
    var x, y := EncodeOne(a), EncodeOne(b);
    assert x[0] == y[0];
    if |x| == 2 {
      assert x[1] == y[1];
    } else if |x| == 3 {
      assert x[1] == y[1] && x[2] == y[2];
      Split(a);
      Split(b);
    } else if |x| == 4 {
      assert x[1] == y[1] && x[2] == y[2] && x[3] == y[3];
      Split(a);
      Split(b);
    }
  }

  lemma Split(cp: int)
    requires 0 <= cp
    ensures cp == cp / 4096 * 4096 + cp / 64 % 64 * 64 + cp % 64
    ensures cp / 4096 == cp / 262144 * 64 + cp / 4096 % 64
  {
    assert cp / 64 / 64 == cp / 4096;
    assert cp / 4096 / 64 == cp / 262144;
  }

  // An encoded text that begins with an encoded list begins with that list, and the rest is the
  // encoding of what follows.
  lemma {:induction false} Remainder(cps: seq<int>, all: seq<int>, rest: seq<Byte>)
    requires AllScalar(cps) && AllScalar(all) && Encode(all) == Encode(cps) + rest
    ensures cps <= all && AllScalar(all[|cps|..]) && Encode(all[|cps|..]) == rest
    decreases |cps|
  {
    if cps == [] {
      assert all[0..] == all;
    } else {
      assert Encode(cps) + rest == EncodeOne(cps[0]) + (Encode(cps[1..]) + rest);
      assert all != [] by {
        assert |Encode(all)| == |EncodeOne(cps[0])| + |Encode(cps[1..])| + |rest|;
      }
      PrefixFree(all[0], cps[0], Encode(all[1..]), Encode(cps[1..]) + rest);
      Remainder(cps[1..], all[1..], rest);
      assert all[1..][|cps| - 1..] == all[|cps|..];
      assert cps == [cps[0]] + cps[1..] && all == [all[0]] + all[1..];
    }
  }

  // Two lists of characters with the same bytes are the same list.
  lemma DecompositionIsUnique(a: seq<int>, b: seq<int>)
    requires AllScalar(a) && AllScalar(b) && Encode(a) == Encode(b)
    ensures a == b
  {
    assert Encode(b) == Encode(a) + [];
    Remainder(a, b, []);
    var more := b[|a|..];
    assert more == [] by {
      assert Encode(more) == [];
    }
  }

  lemma {:induction false} EncodeAppend(cps: seq<int>, cp: int)
    requires AllScalar(cps) && IsScalar(cp)
    ensures Encode(cps + [cp]) == Encode(cps) + EncodeOne(cp)
    decreases |cps|
  {
    if cps == [] {
      assert [cp][1..] == [];
    } else {
      EncodeAppend(cps[1..], cp);
      assert (cps + [cp])[1..] == cps[1..] + [cp];
    }
  }

  // ----- The scanner

  // Reads one two-byte letter at pos, moving on past it, or fails where it stands.
  method IsValidUtf8Cyrillic(str: seq<Byte>, pos: nat) returns (ok: bool, next: nat, ghost cp: int)
    requires pos <= |str|
    ensures ok ==> next == pos + 2 <= |str| && IsCyrillic(cp) && str[pos..next] == EncodeOne(cp)
    ensures !ok ==> next == pos && forall c :: IsCyrillic(c) ==> !(EncodeOne(c) <= str[pos..])
  {
    next, cp := pos, 0x401;
    if pos + 1 >= |str| {
      return false, next, cp;
    }
    var c1: int, c2: int := str[pos], str[pos + 1];
    if c1 == 0xD0 {
      if (0x90 <= c2 <= 0xBF) || c2 == 0x81 {
        return true, pos + 2, c2 - 0x80 + 0x400;
      }
    } else if c1 == 0xD1 {
      if (0x80 <= c2 <= 0x8F) || c2 == 0x91 {
        return true, pos + 2, c2 - 0x80 + 0x440;
      }
    }
    ok := false;
    assert str[pos..][0] == c1 && str[pos..][1] == c2;
    assert forall c :: IsCyrillic(c) ==> EncodeOne(c)[0] != c1 || EncodeOne(c)[1] != c2;
  }

  // A nickname is valid when it is the encoding of 3 to 15 allowed characters.
  ghost predicate Nickname(bytes: seq<Byte>, cps: seq<int>) {
    AllAllowed(cps) && 3 <= |cps| <= 15 && Encode(cps) == bytes
  }

  lemma OneMoreRead(nickname: seq<Byte>, pos: nat, next: nat, cps: seq<int>, cp: int)
    requires AllAllowed(cps) && AllScalar(cps) && Allowed(cp)
    requires pos <= next <= |nickname| && Encode(cps) == nickname[..pos] && EncodeOne(cp) == nickname[pos..next]
    ensures AllAllowed(cps + [cp]) && AllScalar(cps + [cp]) && Encode(cps + [cp]) == nickname[..next]
  {
    EncodeAppend(cps, cp);
    assert nickname[..next] == nickname[..pos] + nickname[pos..next];
  }

  method IsValidNickname(nickname: seq<Byte>) returns (ok: bool)
    ensures ok <==> exists cps :: Nickname(nickname, cps)
  {
    if nickname == [] {
      return false;
    }
    var charCount, pos := 0, 0;
    ghost var cps: seq<int> := [];
    while pos < |nickname|
      invariant pos <= |nickname| && charCount == |cps| && AllAllowed(cps) && AllScalar(cps)
      invariant Encode(cps) == nickname[..pos]
    {
      var c := nickname[pos];
      ghost var cp: int := c;
      var next := pos;
      if IsLatinLetter(c) || IsDigit(c) || IsUnderscore(c) {
        next := pos + 1;
        charCount := charCount + 1;
      } else {
        var cyrillic;
        cyrillic, next, cp := IsValidUtf8Cyrillic(nickname, pos);
        if cyrillic {
          charCount := charCount + 1;
        } else {
          NoCharacterAt(nickname, pos, cps);
          return false;
        }
      }
      OneMoreRead(nickname, pos, next, cps, cp);
      cps, pos := cps + [cp], next;
    }
    assert nickname[..pos] == nickname;
    OnlyReading(nickname, cps);
    ok := 3 <= charCount <= 15;
    if ok {
      assert Nickname(nickname, cps);
    }
  }

  lemma OnlyReading(nickname: seq<Byte>, cps: seq<int>)
    requires AllScalar(cps) && Encode(cps) == nickname
    ensures forall other :: Nickname(nickname, other) ==> other == cps
  {
    forall other | Nickname(nickname, other) ensures other == cps {
      AllowedIsScalar(other);
      DecompositionIsUnique(cps, other);
    }
  }

  lemma HeadOf(cps: seq<int>, bytes: seq<Byte>)
    requires AllScalar(cps) && Encode(cps) == bytes && bytes != []
    ensures cps != [] && EncodeOne(cps[0]) <= bytes && EncodeOne(cps[0])[0] == bytes[0]
  {
    assert (EncodeOne(cps[0]) + Encode(cps[1..]))[0] == EncodeOne(cps[0])[0];
  }

  // A reading of the whole text has a character where a reading of a proper part of it ends.
  lemma CharacterAt(nickname: seq<Byte>, pos: nat, cps: seq<int>, all: seq<int>)
    requires pos < |nickname| && AllAllowed(cps) && Encode(cps) == nickname[..pos]
    requires Nickname(nickname, all)
    ensures |cps| < |all| && EncodeOne(all[|cps|]) <= nickname[pos..] && EncodeOne(all[|cps|])[0] == nickname[pos]
  {
    var tail := nickname[pos..];
    AllowedIsScalar(cps);
    AllowedIsScalar(all);
    assert nickname == nickname[..pos] + tail && tail != [] && tail[0] == nickname[pos];
    Remainder(cps, all, tail);
    HeadOf(all[|cps|..], tail);
  }

  // Where the scanner finds no allowed character, no reading of the whole text succeeds.
  lemma NoCharacterAt(nickname: seq<Byte>, pos: nat, cps: seq<int>)
    requires pos < |nickname| && AllAllowed(cps) && Encode(cps) == nickname[..pos]
    requires var c := nickname[pos]; !(IsLatinLetter(c) || IsDigit(c) || IsUnderscore(c))
    requires forall c :: IsCyrillic(c) ==> !(EncodeOne(c) <= nickname[pos..])
    ensures !exists all :: Nickname(nickname, all)
  {
    forall all | Nickname(nickname, all) ensures false {
      CharacterAt(nickname, pos, cps, all);
    }
  }

  // ----- The rule over bytes

  predicate IsAsciiLetterDigitOrUnderscore(b: Byte) {
    var c := b as char;
    'a' <= c <= 'z' || 'A' <= c <= 'Z' || '0' <= c <= '9' || c == '_'
  }

  lemma {:induction false} AsciiEncodesItself(bytes: seq<Byte>, cps: seq<int>)
    requires |cps| == |bytes| && forall i :: 0 <= i < |bytes| ==> cps[i] == bytes[i] && bytes[i] < 0x80
    ensures AllScalar(cps) && Encode(cps) == bytes
    decreases |bytes|
  {
    if bytes != [] {
      AsciiEncodesItself(bytes[1..], cps[1..]);
      assert [bytes[0]] + bytes[1..] == bytes;
    }
  }

  // A name in ASCII is accepted if and only if it is 3 to 15 letters, digits and underscores.
  lemma AsciiNickname(bytes: seq<Byte>)
    requires forall i :: 0 <= i < |bytes| ==> bytes[i] < 0x80
    ensures (exists cps :: Nickname(bytes, cps)) <==>
            3 <= |bytes| <= 15 && forall i :: 0 <= i < |bytes| ==> IsAsciiLetterDigitOrUnderscore(bytes[i])
  {
    var cps: seq<int> := seq(|bytes|, i requires 0 <= i < |bytes| => bytes[i]);
    AsciiEncodesItself(bytes, cps);
    OnlyReading(bytes, cps);
    if forall i :: 0 <= i < |bytes| ==> IsAsciiLetterDigitOrUnderscore(bytes[i]) {
      assert AllAllowed(cps);
      assert 3 <= |bytes| <= 15 ==> Nickname(bytes, cps);
    }
    if all :| Nickname(bytes, all) {
      assert all == cps;
      forall i | 0 <= i < |bytes| ensures IsAsciiLetterDigitOrUnderscore(bytes[i]) {
        assert Allowed(cps[i]);
      }
    }
  }

  // The permitted Cyrillic letters are two bytes: D0 81, D0 90 to D0 BF, D1 80 to D1 8F, and D1 91.
  lemma CyrillicBytes(a: Byte, b: Byte)
    ensures (exists cp :: IsCyrillic(cp) && EncodeOne(cp) == [a, b]) <==>
            (a == 0xD0 && (b == 0x81 || 0x90 <= b <= 0xBF)) || (a == 0xD1 && (0x80 <= b <= 0x8F || b == 0x91))
  {
    if (a == 0xD0 && (b == 0x81 || 0x90 <= b <= 0xBF)) || (a == 0xD1 && (0x80 <= b <= 0x8F || b == 0x91)) {
      var cp := (a - 0xC0) * 64 + (b - 0x80);
      assert cp / 64 == a - 0xC0 && cp % 64 == b - 0x80;
      assert IsCyrillic(cp) && EncodeOne(cp) == [a, b];
    }
    if cp :| IsCyrillic(cp) && EncodeOne(cp) == [a, b] {
      assert EncodeOne(cp)[0] == a && EncodeOne(cp)[1] == b;
    }
  }

  predicate IsContinuation(b: Byte) {
    0x80 <= b <= 0xBF
  }

  // The table of section 3 of RFC 3629: the lead byte tells the length, the shortest form is taken, and
  // lead and continuation bytes spell the code point with 6 bits a continuation byte.
  lemma EncodingIsUtf8(cp: int)
    requires IsScalar(cp)
    ensures forall i :: 1 <= i < |EncodeOne(cp)| ==> IsContinuation(EncodeOne(cp)[i])
    ensures var b: seq<int> := EncodeOne(cp);
      match |b|
      case 1 => cp == b[0] && cp <= 0x7F
      case 2 => cp == (b[0] - 0xC0) * 64 + (b[1] - 0x80) && 0x80 <= cp <= 0x7FF && 0xC2 <= b[0] <= 0xDF
      case 3 => cp == ((b[0] - 0xE0) * 64 + (b[1] - 0x80)) * 64 + (b[2] - 0x80) && 0x800 <= cp <= 0xFFFF && 0xE0 <= b[0] <= 0xEF
      case _ => cp == (((b[0] - 0xF0) * 64 + (b[1] - 0x80)) * 64 + (b[2] - 0x80)) * 64 + (b[3] - 0x80)
                && 0x10000 <= cp && 0xF0 <= b[0] <= 0xF4
  {
    Split(cp);
  }
}
