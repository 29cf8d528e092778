/** Unpadded URL-safe base64 (RFC 4648 section 5, unpadded as in section 3.2), with the
    leniencies of Go's decoder: it skips line breaks and ignores trailing bits. */
module Base64Url {
  import opened Common
  import opened Order

  /** A six-bit value. */
  type Sextet = x: int | 0 <= x < 64

  /** The alphabet: A-Z, a-z, 0-9, '-' and '_'. */
  function Letter(x: Sextet): Byte {
    if x < 26 then 65 + x
    else if x < 52 then 97 + x - 26
    else if x < 62 then 48 + x - 52
    else if x == 62 then 45
    else 95
  }

  predicate IsLetter(b: Byte) {
    65 <= b < 91 || 97 <= b < 123 || 48 <= b < 58 || b == 45 || b == 95
  }

  function Value(b: Byte): (x: Sextet)
    requires IsLetter(b)
    ensures Letter(x) == b
  {
    if 65 <= b < 91 then b - 65
    else if 97 <= b < 123 then b - 97 + 26
    else if 48 <= b < 58 then b - 48 + 52
    else if b == 45 then 62
    else 63
  }

  lemma LetterHasValue(x: Sextet)
    ensures IsLetter(Letter(x)) && Value(Letter(x)) == x
  {
  }

  // Three bytes as four sextets ...

  function First(a: Byte): Sextet { a / 4 }

  function Second(a: Byte, b: Byte): Sextet { a % 4 * 16 + b / 16 }

  function Third(b: Byte, c: Byte): Sextet { b % 16 * 4 + c / 64 }

  function Fourth(c: Byte): Sextet { c % 64 }

  // ... and back.

  function ByteOne(w: Sextet, x: Sextet): Byte { w * 4 + x / 16 }

  function ByteTwo(x: Sextet, y: Sextet): Byte { x % 16 * 16 + y / 4 }

  function ByteThree(y: Sextet, z: Sextet): Byte { y % 4 * 64 + z }

  /** One or two bytes left over become two or three sextets, filled up with zero bits. */
  function Pack(s: Text): seq<Sextet> {
    if s == [] then []
    else if |s| == 1 then [First(s[0]), Second(s[0], 0)]
    else if |s| == 2 then [First(s[0]), Second(s[0], s[1]), Third(s[1], 0)]
    else [First(s[0]), Second(s[0], s[1]), Third(s[1], s[2]), Fourth(s[2])] + Pack(s[3..])
  }

  /** Trailing bits of a short last group are ignored; a single sextet left over is an error. */
  function Unpack(x: seq<Sextet>): Option<Text> {
    if x == [] then Some([])
    else if |x| == 1 then None
    else if |x| == 2 then Some([ByteOne(x[0], x[1])])
    else if |x| == 3 then Some([ByteOne(x[0], x[1]), ByteTwo(x[1], x[2])])
    else
      match Unpack(x[4..])
      case None => None
      case Some(rest) => Some([ByteOne(x[0], x[1]), ByteTwo(x[1], x[2]), ByteThree(x[2], x[3])] + rest)
  }

  predicate AllLetters(s: Text) {
    forall i :: 0 <= i < |s| ==> IsLetter(s[i])
  }

  function Letters(x: seq<Sextet>): (s: Text)
    ensures |s| == |x|
  {
    seq(|x|, i requires 0 <= i < |x| => Letter(x[i]))
  }

  function Values(s: Text): (x: seq<Sextet>)
    requires AllLetters(s)
    ensures |x| == |s|
  {
    seq(|s|, i requires 0 <= i < |s| => Value(s[i]))
  }

  /** EncodeToString. */
  function Encode(s: Text): Text {
    Letters(Pack(s))
  }

  predicate IsLineBreak(b: Byte) {
    b == 10 || b == 13
  }

  function WithoutLineBreaks(s: Text): Text {
    if s == [] then []
    else if IsLineBreak(s[0]) then WithoutLineBreaks(s[1..])
    else [s[0]] + WithoutLineBreaks(s[1..])
  }

  /** DecodeString. */
  function Decode(s: Text): Option<Text> {
    var t := WithoutLineBreaks(s);
    if AllLetters(t) then Unpack(Values(t)) else None
  }

  // -------------------------------------------------------------------- sextets

  /** A length that whole bytes can have, and trailing bits of zero. */
  predicate CanonicalSextets(x: seq<Sextet>) {
    && |x| % 4 != 1
    && (|x| % 4 == 2 ==> x[|x| - 1] % 16 == 0)
    && (|x| % 4 == 3 ==> x[|x| - 1] % 4 == 0)
  }

  /** Splitting three bytes and joining them again loses nothing. */
  lemma Rejoin(a: Byte, b: Byte, c: Byte)
    ensures ByteOne(First(a), Second(a, b)) == a
    ensures ByteTwo(Second(a, b), Third(b, c)) == b
    ensures ByteThree(Third(b, c), Fourth(c)) == c
    ensures Second(a, 0) % 16 == 0 && Third(b, 0) % 4 == 0
  {
  }

  /** Nor does joining four sextets and splitting them again. */
  lemma Resplit(w: Sextet, x: Sextet, y: Sextet, z: Sextet)
    ensures First(ByteOne(w, x)) == w
    ensures Second(ByteOne(w, x), ByteTwo(x, y)) == x
    ensures Third(ByteTwo(x, y), ByteThree(y, z)) == y
    ensures Fourth(ByteThree(y, z)) == z
    ensures x % 16 == 0 ==> Second(ByteOne(w, x), 0) == x
    ensures y % 4 == 0 ==> Third(ByteTwo(x, y), 0) == y
  {
  }

  lemma {:induction false} PackedIsCanonical(s: Text)
    ensures CanonicalSextets(Pack(s))
    decreases |s|
  {
    hide First, Second, Third, Fourth;
    if |s| >= 3 {
      PackedIsCanonical(s[3..]);
      var rest := Pack(s[3..]);
      assert |Pack(s)| == |rest| + 4;
      assert rest != [] ==> Pack(s)[|rest| + 3] == rest[|rest| - 1];
    } else if |s| == 2 {
      Rejoin(s[0], s[1], 0);
    } else if |s| == 1 {
      Rejoin(s[0], 0, 0);
    }
  }

  lemma {:induction false} UnpackOfPacked(s: Text)
    ensures Unpack(Pack(s)) == Some(s)
    decreases |s|
  {
    hide First, Second, Third, Fourth, ByteOne, ByteTwo, ByteThree;
    if |s| >= 3 {
      UnpackOfPacked(s[3..]);
      Rejoin(s[0], s[1], s[2]);
      assert Pack(s)[4..] == Pack(s[3..]);
      assert s == [s[0], s[1], s[2]] + s[3..];
    } else if |s| == 2 {
      Rejoin(s[0], s[1], 0);
      assert s == [s[0], s[1]];
    } else if |s| == 1 {
      Rejoin(s[0], 0, 0);
      assert s == [s[0]];
    }
  }

  lemma {:induction false} PackOfUnpacked(x: seq<Sextet>)
    requires CanonicalSextets(x)
    ensures Unpack(x).Some? && Pack(Unpack(x).value) == x
    decreases |x|
  {
    hide First, Second, Third, Fourth, ByteOne, ByteTwo, ByteThree;
    if |x| >= 4 {
      var rest := x[4..];
      assert rest != [] ==> rest[|rest| - 1] == x[|x| - 1];
      PackOfUnpacked(rest);
      Resplit(x[0], x[1], x[2], x[3]);
      var s, t := Unpack(x).value, Unpack(rest).value;
      assert s[3..] == t;
      assert x == [x[0], x[1], x[2], x[3]] + rest;
    } else if |x| == 3 {
      Resplit(x[0], x[1], x[2], 0);
      assert x == [x[0], x[1], x[2]];
    } else if |x| == 2 {
      Resplit(x[0], x[1], 0, 0);
      assert x == [x[0], x[1]];
    }
  }

  // --------------------------------------------------------------- canonical form

  /** RFC 4648 section 3.5: only letters, a possible length, and trailing bits of zero. */
  predicate Canonical(s: Text) {
    AllLetters(s) && CanonicalSextets(Values(s))
  }

  lemma {:induction false} LettersHaveNoLineBreaks(s: Text)
    requires AllLetters(s)
    ensures WithoutLineBreaks(s) == s
  {
    if s != [] {
      LettersHaveNoLineBreaks(s[1..]);
      assert s == [s[0]] + s[1..];
    }
  }

  lemma ValuesOfLetters(x: seq<Sextet>)
    ensures AllLetters(Letters(x)) && Values(Letters(x)) == x
  {
    hide IsLetter, Letter, Value;
    forall i | 0 <= i < |x| ensures IsLetter(Letters(x)[i]) && Value(Letters(x)[i]) == x[i] {
      LetterHasValue(x[i]);
    }
  }

  /** Decoding what was encoded gives the bytes back. */
  lemma DecodeOfEncoded(s: Text)
    ensures Decode(Encode(s)) == Some(s)
  {
    ValuesOfLetters(Pack(s));
    LettersHaveNoLineBreaks(Encode(s));
    UnpackOfPacked(s);
  }

  lemma EncodedIsCanonical(s: Text)
    ensures Canonical(Encode(s))
  {
    ValuesOfLetters(Pack(s));
    PackedIsCanonical(s);
  }

  /** The check that re-encoding reproduces the text accepts exactly the canonical texts. */
  lemma ReencodingAcceptsCanonical(s: Text)
    ensures Decode(s).Some? && Encode(Decode(s).value) == s <==> Canonical(s)
  {
    if Canonical(s) {
      LettersHaveNoLineBreaks(s);
      PackOfUnpacked(Values(s));
      assert Letters(Values(s)) == s;
    }
    if Decode(s).Some? {
      EncodedIsCanonical(Decode(s).value);
    }
  }

  // -------------------------------------------------------------- the standard's terms

  /** Table 2 of RFC 4648: the ends of its five ranges, and no gaps in between. */
  lemma LettersAreTheAlphabet(x: Sextet)
    ensures Letter(0) == 'A' as int && Letter(25) == 'Z' as int && Letter(26) == 'a' as int && Letter(51) == 'z' as int
    ensures Letter(52) == '0' as int && Letter(61) == '9' as int && Letter(62) == '-' as int && Letter(63) == '_' as int
    ensures x !in {25, 51, 61, 62, 63} ==> Letter(x + 1) == Letter(x) + 1
  {
  }

  /** Digits in base 256 and in base 64, the highest first. */
  function Bytes(a: int, b: int, c: int): int {
    (a * 256 + b) * 256 + c
  }

  function Sextets(w: int, x: int, y: int, z: int): int {
    ((w * 64 + x) * 64 + y) * 64 + z
  }

  /** A group of three bytes and its four sextets are the same 24-bit number; a shorter
      last group is one filled up with zeros. */
  lemma GroupIsOneNumber(a: Byte, b: Byte, c: Byte)
    ensures Sextets(First(a), Second(a, b), Third(b, c), Fourth(c)) == Bytes(a, b, c)
    ensures Sextets(First(a), Second(a, b), Third(b, 0), 0) == Bytes(a, b, 0)
    ensures Sextets(First(a), Second(a, 0), 0, 0) == Bytes(a, 0, 0)
  {
  }

  function At(x: seq<int>, i: nat): int {
    if i < |x| then x[i] else 0
  }

  /** Group k of a text is encoded at 4k, as the same number. */
  lemma {:induction false} EncodesGroupByGroup(s: Text, k: nat)
    requires 3 * k < |s|
    ensures |Pack(s)| == (4 * |s| + 2) / 3
    ensures var x: seq<int> := Pack(s);
      Sextets(At(x, 4 * k), At(x, 4 * k + 1), At(x, 4 * k + 2), At(x, 4 * k + 3)) ==
        Bytes(At(s, 3 * k), At(s, 3 * k + 1), At(s, 3 * k + 2))
    decreases |s|
  {
    PackedLength(s);
    if k == 0 {
      GroupIsOneNumber(s[0], if |s| > 1 then s[1] else 0, if |s| > 2 then s[2] else 0);
      hide First, Second, Third, Fourth, Bytes, Sextets;
    } else {
      hide First, Second, Third, Fourth, Bytes, Sextets;
      EncodesGroupByGroup(s[3..], k - 1);
      var x: seq<int>, y: seq<int> := Pack(s), Pack(s[3..]);
      assert x[4..] == y;
      assert forall i: nat :: At(y, i) == At(x, i + 4);
      assert forall i: nat :: At(s[3..], i) == At(s, i + 3);
    }
  }

  lemma {:induction false} PackedLength(s: Text)
    ensures |Pack(s)| == (4 * |s| + 2) / 3
    decreases |s|
  {
    hide First, Second, Third, Fourth;
    if |s| >= 3 { PackedLength(s[3..]); }
  }
}
