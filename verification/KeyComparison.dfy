/** The API key comparison: character counts are compared, then the UTF-8 bytes are zipped.
    UTF-8 is encoded as in section 3 of RFC 3629. */
module KeyComparison {
  import opened Handoff

  /** A Python string is a sequence of code points; lone surrogates are allowed in it, but cannot be encoded. */
  type CodePoint = c: bv32 | c <= 0x10FFFF witness 0

  type Text = seq<CodePoint>

  predicate IsSurrogate(c: CodePoint) {
    0xD800 <= c <= 0xDFFF
  }

  predicate Encodable(t: Text) {
    forall i | 0 <= i < |t| :: !IsSurrogate(t[i])
  }

  // ----- UTF-8 -----

  function LeadByte(c: CodePoint): bv8 {
    if c < 0x80 then c as bv8
    else if c < 0x800 then (0xC0 | (c >> 6)) as bv8
    else if c < 0x10000 then (0xE0 | (c >> 12)) as bv8
    else (0xF0 | (c >> 18)) as bv8
  }

  /** The continuation byte that carries the six bits above `shift`. */
  function Continuation(c: CodePoint, shift: bv5): bv8 {
    (0x80 | ((c >> shift) & 0x3F)) as bv8
  }

  function EncodeChar(c: CodePoint): seq<bv8> {
    if c < 0x80 then [LeadByte(c)]
    else if c < 0x800 then [LeadByte(c), Continuation(c, 0)]
    else if c < 0x10000 then [LeadByte(c), Continuation(c, 6), Continuation(c, 0)]
    else [LeadByte(c), Continuation(c, 12), Continuation(c, 6), Continuation(c, 0)]
  }

  function Encode(t: Text): seq<bv8> {
    if t == [] then [] else EncodeChar(t[0]) + Encode(t[1..])
  }

  /** The bits a continuation byte carries. */
  function Low6(x: bv8): bv32 {
    (x & 0x3F) as bv32
  }

  /** The code point in the bytes of one character. */
  function DecodeChar(x: seq<bv8>): bv32 {
    if |x| == 1 then x[0] as bv32
    else if |x| == 2 then ((x[0] & 0x1F) as bv32 << 6) | Low6(x[1])
    else if |x| == 3 then ((x[0] & 0x0F) as bv32 << 12) | (Low6(x[1]) << 6) | Low6(x[2])
    else if |x| == 4 then ((x[0] & 0x07) as bv32 << 18) | (Low6(x[1]) << 12) | (Low6(x[2]) << 6) | Low6(x[3])
    else 0
  }

  lemma ContinuationBits(c: CodePoint)
    ensures Low6(Continuation(c, 0)) == c & 0x3F && 0x80 <= Continuation(c, 0) <= 0xBF
    ensures Low6(Continuation(c, 6)) == (c >> 6) & 0x3F && 0x80 <= Continuation(c, 6) <= 0xBF
    ensures Low6(Continuation(c, 12)) == (c >> 12) & 0x3F && 0x80 <= Continuation(c, 12) <= 0xBF
  {
  }

  lemma LeadBits(c: CodePoint)
    ensures 0x80 <= c < 0x800 ==> (LeadByte(c) & 0x1F) as bv32 == c >> 6 && 0xC2 <= LeadByte(c) <= 0xDF
    ensures 0x800 <= c < 0x10000 ==> (LeadByte(c) & 0x0F) as bv32 == c >> 12 && 0xE0 <= LeadByte(c) <= 0xEF
    ensures 0x10000 <= c ==> (LeadByte(c) & 0x07) as bv32 == c >> 18 && 0xF0 <= LeadByte(c) <= 0xF4
  {
  }

  lemma Join2(c: bv32, a: bv32, b: bv32)
    requires a == c >> 6 && b == c & 0x3F
    ensures (a << 6) | b == c
  {
  }

  lemma Join3(c: bv32, a: bv32, b: bv32, d: bv32)
    requires a == c >> 12 && b == (c >> 6) & 0x3F && d == c & 0x3F
    ensures (a << 12) | (b << 6) | d == c
  {
  }

  lemma Join4(c: bv32, a: bv32, b: bv32, d: bv32, e: bv32)
    requires a == c >> 18 && b == (c >> 12) & 0x3F && d == (c >> 6) & 0x3F && e == c & 0x3F
    ensures (a << 18) | (b << 12) | (d << 6) | e == c
  {
  }

  lemma DecodeTwo(c: CodePoint)
    requires 0x80 <= c < 0x800
    ensures DecodeChar([LeadByte(c), Continuation(c, 0)]) == c
  {
    hide LeadByte, Continuation, Low6;
    ContinuationBits(c);
    LeadBits(c);
    Join2(c, (LeadByte(c) & 0x1F) as bv32, Low6(Continuation(c, 0)));
  }

  lemma DecodeThree(c: CodePoint)
    requires 0x800 <= c < 0x10000
    ensures DecodeChar([LeadByte(c), Continuation(c, 6), Continuation(c, 0)]) == c
  {
    hide LeadByte, Continuation, Low6;
    ContinuationBits(c);
    LeadBits(c);
    Join3(c, (LeadByte(c) & 0x0F) as bv32, Low6(Continuation(c, 6)), Low6(Continuation(c, 0)));
  }

  lemma DecodeFour(c: CodePoint)
    requires 0x10000 <= c
    ensures DecodeChar([LeadByte(c), Continuation(c, 12), Continuation(c, 6), Continuation(c, 0)]) == c
  {
    hide LeadByte, Continuation, Low6;
    ContinuationBits(c);
    LeadBits(c);
    Join4(c, (LeadByte(c) & 0x07) as bv32, Low6(Continuation(c, 12)), Low6(Continuation(c, 6)),
          Low6(Continuation(c, 0)));
  }

  lemma DecodeOne(c: CodePoint)
    requires c < 0x80
    ensures DecodeChar([LeadByte(c)]) == c
  {
  }

  /** The encoding is that of RFC 3629: the bits of the code point can be read back from it. */
  lemma DecodesToItself(c: CodePoint)
    ensures DecodeChar(EncodeChar(c)) == c
  {
    hide LeadByte, Continuation, Low6, DecodeChar;
    if c < 0x80 {
      DecodeOne(c);
    } else if c < 0x800 {
      DecodeTwo(c);
    } else if c < 0x10000 {
      DecodeThree(c);
    } else {
      DecodeFour(c);
    }
  }

  /** It has the shortest form, and first and continuation bytes are in the ranges of section 4. */
  lemma EncodingIsUtf8(c: CodePoint)
    ensures var x := EncodeChar(c);
      && |x| == (if c <= 0x7F then 1 else if c <= 0x7FF then 2 else if c <= 0xFFFF then 3 else 4)
      && (|x| == 2 ==> 0xC2 <= x[0] <= 0xDF)
      && (|x| == 3 ==> 0xE0 <= x[0] <= 0xEF)
      && (|x| == 4 ==> 0xF0 <= x[0] <= 0xF4)
      && (forall i | 0 < i < |x| :: 0x80 <= x[i] <= 0xBF)
  {
    ContinuationBits(c);
    LeadBits(c);
    hide Continuation, LeadByte, Low6;
  }

  /** The surrogates are exactly what section 4 leaves out: first byte ED, second byte A0 and above. */
  lemma SurrogatesAreTheGap(c: CodePoint)
    ensures IsSurrogate(c) <==> c >> 11 == 0x1B
    ensures IsSurrogate(c) <==> |EncodeChar(c)| == 3 && EncodeChar(c)[0] == 0xED && EncodeChar(c)[1] >= 0xA0
  {
  }

  /** How many bytes a character takes, read off its first byte. */
  function LengthFrom(lead: bv8): nat {
    if lead < 0x80 then 1 else if lead < 0xE0 then 2 else if lead < 0xF0 then 3 else 4
  }

  lemma LeadDeterminesLength(c: CodePoint)
    ensures LengthFrom(EncodeChar(c)[0]) == |EncodeChar(c)|
  {
  }

  lemma TwoByteInjective(c: CodePoint, d: CodePoint)
    requires 0x80 <= c < 0x800 && 0x80 <= d < 0x800
    requires LeadByte(c) == LeadByte(d) && Continuation(c, 0) == Continuation(d, 0)
    ensures c == d
  {
  }

  lemma ThreeByteInjective(c: CodePoint, d: CodePoint)
    requires 0x800 <= c < 0x10000 && 0x800 <= d < 0x10000
    requires LeadByte(c) == LeadByte(d) && Continuation(c, 6) == Continuation(d, 6)
    requires Continuation(c, 0) == Continuation(d, 0)
    ensures c == d
  {
  }

  lemma FourByteInjective(c: CodePoint, d: CodePoint)
    requires 0x10000 <= c && 0x10000 <= d
    requires LeadByte(c) == LeadByte(d) && Continuation(c, 12) == Continuation(d, 12)
    requires Continuation(c, 6) == Continuation(d, 6) && Continuation(c, 0) == Continuation(d, 0)
    ensures c == d
  {
  }

  lemma CharInjective(c: CodePoint, d: CodePoint)
    requires EncodeChar(c) == EncodeChar(d)
    ensures c == d
  {
    var x, y := EncodeChar(c), EncodeChar(d);
    assert x[0] == y[0];
    if |x| == 2 {
      assert x[1] == y[1];
      TwoByteInjective(c, d);
    } else if |x| == 3 {
      assert x[1] == y[1] && x[2] == y[2];
      ThreeByteInjective(c, d);
    } else if |x| == 4 {
      assert x[1] == y[1] && x[2] == y[2] && x[3] == y[3];
      FourByteInjective(c, d);
    }
  }

  /** Two byte strings agree on everything zip looks at. */
  predicate ZipEqual(x: seq<bv8>, y: seq<bv8>) {
    forall i | 0 <= i < |x| && i < |y| :: x[i] == y[i]
  }

  /** The first characters' bytes have the same length, because the first byte fixes it; so they are all compared. */
  lemma FirstCharAgrees(a: Text, b: Text)
    requires a != [] && b != [] && ZipEqual(Encode(a), Encode(b))
    ensures a[0] == b[0]
  {
    var x, y := EncodeChar(a[0]), EncodeChar(b[0]);
    assert Encode(a)[0] == x[0] && Encode(b)[0] == y[0];
    LeadDeterminesLength(a[0]);
    LeadDeterminesLength(b[0]);
    forall i | 0 <= i < |x|
      ensures x[i] == y[i]
    {
      assert Encode(a)[i] == x[i] && Encode(b)[i] == y[i];
    }
    CharInjective(a[0], b[0]);
  }

  lemma RestAgrees(a: Text, b: Text)
    requires a != [] && b != [] && a[0] == b[0] && ZipEqual(Encode(a), Encode(b))
    ensures ZipEqual(Encode(a[1..]), Encode(b[1..]))
  {
    hide EncodeChar;
    var n, xs, ys := |EncodeChar(a[0])|, Encode(a[1..]), Encode(b[1..]);
    forall i | 0 <= i < |xs| && i < |ys|
      ensures xs[i] == ys[i]
    {
      assert Encode(a)[n + i] == xs[i] && Encode(b)[n + i] == ys[i];
    }
  }

  /** UTF-8 is prefix-free per character: equally many characters whose bytes agree as far as the
      shorter encoding goes are the same characters. */
  lemma {:induction false} ZipEqualMeansEqual(a: Text, b: Text)
    requires |a| == |b| && ZipEqual(Encode(a), Encode(b))
    ensures a == b
  {
    hide Encode, ZipEqual;
    if a != [] {
      FirstCharAgrees(a, b);
      RestAgrees(a, b);
      ZipEqualMeansEqual(a[1..], b[1..]);
      assert a == [a[0]] + a[1..] && b == [b[0]] + b[1..];
    }
  }

  lemma OrOfXor(r: bv8, x: bv8, y: bv8)
    ensures r | (x ^ y) == 0 <==> r == 0 && x == y
  {
  }

  /** `None` stands for UnicodeEncodeError. The comparison is true exactly on equal, encodable strings,
      and raises exactly on strings of equal length of which one cannot be encoded. */
  method ConstantTimeCompare(a: Text, b: Text) returns (r: Option<bool>)
    ensures r == None <==> |a| == |b| && !(Encodable(a) && Encodable(b))
    ensures r == Some(true) <==> a == b && Encodable(a)
  {
    if |a| != |b| {
      return Some(false);
    }
    if !Encodable(a) || !Encodable(b) {
      return None;
    }
    var x, y := Encode(a), Encode(b);
    var result: bv8 := 0;
    var n := if |x| < |y| then |x| else |y|;
    for i := 0 to n
      invariant result == 0 <==> forall k | 0 <= k < i :: x[k] == y[k]
    {
      OrOfXor(result, x[i], y[i]);
      result := result | (x[i] ^ y[i]);
    }
    if result == 0 {
      ZipEqualMeansEqual(a, b);
    }
    return Some(result == 0);
  }

  datatype Access = Granted | Refused | EncodingFailed

  /** validate_api_key: mock authentication and an empty configured key let everyone in;
      otherwise only the configured key itself does. */
  method ValidateApiKey(provided: Text, valid: Text, mockAuth: bool) returns (r: Access)
    ensures r == Granted <==> mockAuth || valid == [] || (provided == valid && Encodable(valid))
    ensures r == EncodingFailed <==>
              !mockAuth && valid != [] && |provided| == |valid| && !(Encodable(provided) && Encodable(valid))
  {
    if mockAuth || valid == [] {
      return Granted;
    }
    var same := ConstantTimeCompare(provided, valid);
    r := match same case None => EncodingFailed case Some(ok) => if ok then Granted else Refused;
  }
}
