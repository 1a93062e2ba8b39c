/** Base64Encode and the strict decoder of RFC 4648, section 4. */
module Base64 {
  import opened Options

  const BASE64_CHARS: string := "ABCDEFGHIJKLMNOPQRSTUVWXYZabcdefghijklmnopqrstuvwxyz0123456789+/"

  type Byte = b: int | 0 <= b < 256
  type Sextet = v: int | 0 <= v < 64

  function Digit(v: Sextet): char {
    BASE64_CHARS[v]
  }

  // The four groups of six bits; shifts and masks are written as division and remainder.

  function Bits0(b0: Byte): Sextet {
    b0 / 4
  }

  function Bits1(b0: Byte, b1: Byte): Sextet {
    b0 % 4 * 16 + b1 / 16
  }

  function Bits2(b1: Byte, b2: Byte): Sextet {
    b1 % 16 * 4 + b2 / 64
  }

  function Bits3(b2: Byte): Sextet {
    b2 % 64
  }

  /** Up to three bytes as groups of six bits. */
  datatype Quantum =
    | One(c0: Sextet, c1: Sextet)
    | Two(c0: Sextet, c1: Sextet, c2: Sextet)
    | Three(c0: Sextet, c1: Sextet, c2: Sextet, c3: Sextet)

  function QuantumOf(input: seq<Byte>): Quantum
    requires input != []
  {
    if |input| == 1 then One(Bits0(input[0]), Bits1(input[0], 0))
    else if |input| == 2 then Two(Bits0(input[0]), Bits1(input[0], input[1]), Bits2(input[1], 0))
    else Three(Bits0(input[0]), Bits1(input[0], input[1]), Bits2(input[1], input[2]), Bits3(input[2]))
  }

  /** Four characters: the digits, padded to the full length. */
  function Text(q: Quantum): (s: string)
    ensures |s| == 4
  {
    match q
    case One(c0, c1) => [Digit(c0), Digit(c1), '=', '=']
    case Two(c0, c1, c2) => [Digit(c0), Digit(c1), Digit(c2), '=']
    case Three(c0, c1, c2, c3) => [Digit(c0), Digit(c1), Digit(c2), Digit(c3)]
  }

  function Quad(input: seq<Byte>): (q: string)
    requires input != []
    ensures |q| == 4
  {
    Text(QuantumOf(input))
  }

  function Rest(input: seq<Byte>): seq<Byte> {
    if |input| > 3 then input[3..] else []
  }

  function Encoded(input: seq<Byte>): string
    decreases |input|
  {
    if input == [] then "" else Quad(input) + Encoded(Rest(input))
  }

  lemma {:induction false} EncodedStep(input: seq<Byte>, i: nat, was: string, goal: string)
    requires i < |input| && was + Encoded(input[i..]) == goal
    ensures was + Quad(input[i..]) + Encoded(input[if i + 3 < |input| then i + 3 else |input|..]) == goal
  {
    var t := input[i..];
    var next := if i + 3 < |input| then i + 3 else |input|;
    assert Rest(t) == input[next..];
    assert was + (Quad(t) + Encoded(Rest(t))) == was + Quad(t) + Encoded(Rest(t));
  }

  method Base64Encode(input: seq<Byte>) returns (output: string)
    ensures output == Encoded(input)
  {
    hide Encoded, Quad, Digit, Bits0, Bits1, Bits2, Bits3;
    output := "";
    var i := 0;
    assert input[0..] == input;
    while i < |input|
      invariant 0 <= i
      invariant output + Encoded(input[if i < |input| then i else |input|..]) == Encoded(input)
    {
      EncodedStep(input, i, output, Encoded(input));
      var b0 := input[i];
      var b1: Byte := if i + 1 < |input| then input[i + 1] else 0;
      var b2: Byte := if i + 2 < |input| then input[i + 2] else 0;
      QuadAt(input, i);
      output := output + [Digit(Bits0(b0))];
      output := output + [Digit(Bits1(b0, b1))];
      output := output + [if i + 1 < |input| then Digit(Bits2(b1, b2)) else '='];
      output := output + [if i + 2 < |input| then Digit(Bits3(b2)) else '='];
      i := i + 3;
    }
    NothingEncoded();
    assert input[|input|..] == [];
  }

  lemma {:induction false} NothingEncoded()
    ensures Encoded([]) == ""
  {
  }

  lemma {:induction false} QuadAt(input: seq<Byte>, i: nat)
    requires i < |input|
    ensures var b0 := input[i];
            var b1: Byte := if i + 1 < |input| then input[i + 1] else 0;
            var b2: Byte := if i + 2 < |input| then input[i + 2] else 0;
            Quad(input[i..]) ==
            [Digit(Bits0(b0))] + [Digit(Bits1(b0, b1))] +
            [if i + 1 < |input| then Digit(Bits2(b1, b2)) else '='] +
            [if i + 2 < |input| then Digit(Bits3(b2)) else '=']
  {
    hide Digit, Bits0, Bits1, Bits2, Bits3;
  }

  // ----- the decoder -----------------------------------------------------------------------------

  /** The value of a digit of the alphabet. */
  function Value(c: char): Option<Sextet> {
    if 'A' <= c <= 'Z' then Some(c as int - 'A' as int)
    else if 'a' <= c <= 'z' then Some(c as int - 'a' as int + 26)
    else if '0' <= c <= '9' then Some(c as int - '0' as int + 52)
    else if c == '+' then Some(62)
    else if c == '/' then Some(63)
    else None
  }

  /** Reading four characters; only the last quantum may be padded. */
  function Read(s: string, last: bool): Option<Quantum>
    requires |s| == 4
  {
    match (Value(s[0]), Value(s[1]), Value(s[2]), Value(s[3]))
    case (Some(c0), Some(c1), Some(c2), Some(c3)) => Some(Three(c0, c1, c2, c3))
    case (Some(c0), Some(c1), Some(c2), None) => if last && s[3] == '=' then Some(Two(c0, c1, c2)) else None
    case (Some(c0), Some(c1), None, None) => if last && s[2] == s[3] == '=' then Some(One(c0, c1)) else None
    case _ => None
  }

  function Byte0(c0: Sextet, c1: Sextet): Byte {
    c0 * 4 + c1 / 16
  }

  function Byte1(c1: Sextet, c2: Sextet): Byte {
    c1 % 16 * 16 + c2 / 4
  }

  function Byte2(c2: Sextet, c3: Sextet): Byte {
    c2 % 4 * 64 + c3
  }

  /** The bytes of a quantum; the bits left over must be zero. */
  function Bytes(q: Quantum): Option<seq<Byte>> {
    match q
    case One(c0, c1) => if c1 % 16 == 0 then Some([Byte0(c0, c1)]) else None
    case Two(c0, c1, c2) => if c2 % 4 == 0 then Some([Byte0(c0, c1), Byte1(c1, c2)]) else None
    case Three(c0, c1, c2, c3) => Some([Byte0(c0, c1), Byte1(c1, c2), Byte2(c2, c3)])
  }

  function DecodeQuad(s: string, last: bool): Option<seq<Byte>>
    requires |s| == 4
  {
    match Read(s, last)
    case None => None
    case Some(q) => Bytes(q)
  }

  function Decode(s: string): Option<seq<Byte>> {
    if s == "" then Some([])
    else if |s| < 4 then None
    else
      var first := DecodeQuad(s[..4], |s| == 4);
      var others := Decode(s[4..]);
      if first.Some? && others.Some? then Some(first.value + others.value) else None
  }

  // ----- the digits ------------------------------------------------------------------------------

  /** n consecutive characters. */
  function Run(first: char, n: nat): (r: string)
    requires first as int + n <= 128
    ensures |r| == n && forall i :: 0 <= i < n ==> r[i] == (first as int + i) as char
  {
    if n == 0 then "" else Run(first, n - 1) + [(first as int + n - 1) as char]
  }

  lemma {:induction false} RunJoin(first: char, m: nat, n: nat)
    requires first as int + m + n <= 128
    ensures Run(first, m) + Run((first as int + m) as char, n) == Run(first, m + n)
  {
  }

  lemma {:induction false} UpperCaseStart()
    ensures "ABCDEFGHI" == Run('A', 9) && "JKLMNOPQR" == Run('J', 9)
  {
  }

  lemma {:induction false} UpperCaseEnd()
    ensures "STUVWXYZ" == Run('S', 8)
  {
  }

  lemma {:induction false} UpperCase()
    ensures "ABCDEFGHIJKLMNOPQRSTUVWXYZ" == Run('A', 26)
  {
    hide Run;
    UpperCaseStart();
    UpperCaseEnd();
    RunJoin('A', 9, 9);
    RunJoin('A', 18, 8);
    assert "ABCDEFGHIJKLMNOPQRSTUVWXYZ" == "ABCDEFGHI" + "JKLMNOPQR" + "STUVWXYZ";
  }

  lemma {:induction false} LowerCaseStart()
    ensures "abcdefghi" == Run('a', 9) && "jklmnopqr" == Run('j', 9)
  {
  }

  lemma {:induction false} LowerCaseEnd()
    ensures "stuvwxyz" == Run('s', 8)
  {
  }

  lemma {:induction false} LowerCase()
    ensures "abcdefghijklmnopqrstuvwxyz" == Run('a', 26)
  {
    hide Run;
    LowerCaseStart();
    LowerCaseEnd();
    RunJoin('a', 9, 9);
    RunJoin('a', 18, 8);
    assert "abcdefghijklmnopqrstuvwxyz" == "abcdefghi" + "jklmnopqr" + "stuvwxyz";
  }

  lemma {:induction false} Alphabet()
    ensures BASE64_CHARS == Run('A', 26) + Run('a', 26) + Run('0', 10) + ['+'] + ['/']
  {
    hide Run;
    UpperCase();
    LowerCase();
    Digits();
    var upper, lower, digits := "ABCDEFGHIJKLMNOPQRSTUVWXYZ", "abcdefghijklmnopqrstuvwxyz", "0123456789";
    assert BASE64_CHARS == upper + lower + digits + ['+'] + ['/'];
  }

  lemma {:induction false} Digits()
    ensures "0123456789" == Run('0', 10)
  {
  }

  lemma {:induction false} RunsAt(s: string, v: Sextet)
    requires s == Run('A', 26) + Run('a', 26) + Run('0', 10) + ['+'] + ['/']
    ensures |s| == 64
    ensures v < 26 ==> s[v] == (v + 65) as char
    ensures 26 <= v < 52 ==> s[v] == (v + 71) as char
    ensures 52 <= v < 62 ==> s[v] == (v - 4) as char
    ensures v == 62 ==> s[v] == '+'
    ensures v == 63 ==> s[v] == '/'
  {
  }

  lemma {:induction false} ValueOfDigit(v: Sextet)
    ensures Value(Digit(v)) == Some(v) && Digit(v) != '='
  {
    hide Run;
    Alphabet();
    RunsAt(BASE64_CHARS, v);
  }

  /** Different digits have different values. */
  lemma {:induction false} DigitOfValue(c: char)
    requires Value(c).Some?
    ensures Digit(Value(c).value) == c
  {
    hide Run;
    Alphabet();
    RunsAt(BASE64_CHARS, Value(c).value);
  }

  // ----- round trips ------------------------------------------------------------------------------

  function First(input: seq<Byte>): seq<Byte> {
    if |input| > 3 then input[..3] else input
  }

  lemma {:induction false} ReadText(q: Quantum, last: bool)
    requires last || q.Three?
    ensures Read(Text(q), last) == Some(q)
  {
    hide Digit, Value;
    ValueOfDigit(q.c0);
    ValueOfDigit(q.c1);
    if !q.One? { ValueOfDigit(q.c2); }
    if q.Three? { ValueOfDigit(q.c3); }
    PadHasNoValue();
  }

  lemma {:induction false} TextRead(s: string, last: bool)
    requires |s| == 4 && Read(s, last).Some?
    ensures Text(Read(s, last).value) == s
    ensures last || Read(s, last).value.Three?
  {
    hide Digit, Value;
    forall c: char | Value(c).Some? ensures Digit(Value(c).value) == c {
      DigitOfValue(c);
    }
    assert s == [s[0], s[1], s[2], s[3]];
  }

  lemma {:induction false} PadHasNoValue()
    ensures Value('=') == None
  {
  }

  lemma {:induction false} BitsRejoin(b0: Byte, b1: Byte, b2: Byte)
    ensures Byte0(Bits0(b0), Bits1(b0, b1)) == b0
    ensures Byte1(Bits1(b0, b1), Bits2(b1, b2)) == b1
    ensures Byte2(Bits2(b1, b2), Bits3(b2)) == b2
    ensures Bits1(b0, 0) % 16 == 0 && Bits2(b1, 0) % 4 == 0
  {
  }

  lemma {:induction false} BytesOfQuantum(input: seq<Byte>)
    requires input != []
    ensures Bytes(QuantumOf(input)) == Some(First(input))
    ensures QuantumOf(input).Three? <==> |input| >= 3
  {
    hide Bits0, Bits1, Bits2, Bits3, Byte0, Byte1, Byte2;
    if |input| == 1 {
      BitsRejoin(input[0], 0, 0);
      assert First(input) == [input[0]];
    } else if |input| == 2 {
      BitsRejoin(input[0], input[1], 0);
      assert First(input) == [input[0], input[1]];
    } else {
      BitsRejoin(input[0], input[1], input[2]);
      assert First(input) == [input[0], input[1], input[2]];
    }
  }

  lemma {:induction false} SextetsRejoin(c0: Sextet, c1: Sextet, c2: Sextet, c3: Sextet)
    ensures Bits0(Byte0(c0, c1)) == c0
    ensures Bits1(Byte0(c0, c1), Byte1(c1, c2)) == c1
    ensures Bits2(Byte1(c1, c2), Byte2(c2, c3)) == c2
    ensures Bits3(Byte2(c2, c3)) == c3
    ensures c1 % 16 == 0 ==> Bits1(Byte0(c0, c1), 0) == c1
    ensures c2 % 4 == 0 ==> Bits2(Byte1(c1, c2), 0) == c2
  {
  }

  lemma {:induction false} QuantumOfBytes(q: Quantum, rest: seq<Byte>)
    requires Bytes(q).Some? && (q.Three? || rest == [])
    ensures QuantumOf(Bytes(q).value + rest) == q
    ensures |Bytes(q).value| == if q.One? then 1 else if q.Two? then 2 else 3
  {
    hide Bits0, Bits1, Bits2, Bits3, Byte0, Byte1, Byte2;
    var p := Bytes(q).value;
    SextetsRejoin(q.c0, q.c1, if q.One? then 0 else q.c2, if q.Three? then q.c3 else 0);
    assert (p + rest)[0] == p[0];
    assert |p| > 1 ==> (p + rest)[1] == p[1];
    assert |p| > 2 ==> (p + rest)[2] == p[2];
  }

  lemma {:induction false} QuadDecodes(input: seq<Byte>)
    requires input != []
    ensures DecodeQuad(Quad(input), |input| <= 3) == Some(First(input))
  {
    hide Read, Text, Bytes, QuantumOf;
    BytesOfQuantum(input);
    ReadText(QuantumOf(input), |input| <= 3);
  }

  /** The encoding of a byte string in quanta: the lengths, and where it ends. */
  lemma {:induction false} EncodedLength(input: seq<Byte>)
    ensures |Encoded(input)| == (|input| + 2) / 3 * 4
    ensures input == [] <==> Encoded(input) == ""
    decreases |input|
  {
    hide Quad;
    if input != [] {
      EncodedLength(Rest(input));
      assert Encoded(input) == Quad(input) + Encoded(Rest(input));
    }
  }

  /** Decoding undoes encoding. */
  lemma {:induction false} DecodeEncoded(input: seq<Byte>)
    ensures Decode(Encoded(input)) == Some(input)
    decreases |input|
  {
    hide Quad, DecodeQuad;
    if input != [] {
      var q, t := Quad(input), Encoded(Rest(input));
      QuadDecodes(input);
      DecodeEncoded(Rest(input));
      EncodedLength(Rest(input));
      assert Encoded(input) == q + t;
      assert (q + t)[..4] == q && (q + t)[4..] == t;
      assert |t| == 0 <==> |input| <= 3;
      assert First(input) + Rest(input) == input;
    }
  }

  lemma {:induction false} DecodedQuad(s: string, last: bool, rest: seq<Byte>)
    requires |s| == 4 && DecodeQuad(s, last).Some?
    ensures var p := DecodeQuad(s, last).value;
            1 <= |p| <= 3 && (|p| < 3 ==> last) && (|p| == 3 || rest == [] ==> Quad(p + rest) == s)
  {
    hide Read, Text, Bytes, QuantumOf;
    var q := Read(s, last).value;
    TextRead(s, last);
    if q.Three? || rest == [] {
      QuantumOfBytes(q, rest);
    }
    QuantumOfBytes(q, []);
  }

  /** Only encodings decode: the decoder rejects everything else. */
  lemma {:induction false} DecodedIsEncoded(s: string)
    requires Decode(s).Some?
    ensures Encoded(Decode(s).value) == s
  {
    hide Quad, DecodeQuad;
    if s != "" {
      var first, others := DecodeQuad(s[..4], |s| == 4), Decode(s[4..]);
      DecodedIsEncoded(s[4..]);
      DecodedQuad(s[..4], |s| == 4, others.value);
      var p := first.value;
      assert |s| == 4 ==> others.value == [] by { EncodedLength(others.value); }
      assert Rest(p + others.value) == others.value;
      assert s == s[..4] + s[4..];
    }
  }

  /** Encoder and decoder are inverse to each other, in both directions. */
  lemma {:induction false} DecodeIff(s: string, input: seq<Byte>)
    ensures Decode(s) == Some(input) <==> s == Encoded(input)
  {
    DecodeEncoded(input);
    if Decode(s).Some? {
      DecodedIsEncoded(s);
    }
  }

  lemma {:induction false} EncodeInjective(a: seq<Byte>, b: seq<Byte>)
    requires Encoded(a) == Encoded(b)
    ensures a == b
  {
    DecodeEncoded(a);
    DecodeEncoded(b);
  }

  lemma {:induction false} QuadPadding(input: seq<Byte>, i: nat)
    requires input != [] && i < 4
    ensures Quad(input)[i] == '=' <==> i >= 4 - (if |input| >= 3 then 0 else 3 - |input|)
    ensures Quad(input)[i] != '=' ==> Value(Quad(input)[i]).Some?
  {
    hide Digit, Value, Bits0, Bits1, Bits2, Bits3;
    var q := QuantumOf(input);
    ValueOfDigit(q.c0);
    ValueOfDigit(q.c1);
    if !q.One? { ValueOfDigit(q.c2); }
    if q.Three? { ValueOfDigit(q.c3); }
  }

  lemma {:induction false} Unfold(input: seq<Byte>)
    requires input != []
    ensures Encoded(input) == Quad(input) + Encoded(Rest(input))
  {
  }

  /** Padding stands at the end only: two characters of it after one left-over byte, one after
      two, none otherwise; every other character is a digit. */
  lemma {:induction false} PaddingAtEnd(input: seq<Byte>, i: nat)
    requires i < |Encoded(input)|
    ensures Encoded(input)[i] == '=' <==>
            i >= |Encoded(input)| - (if |input| % 3 == 0 then 0 else 3 - |input| % 3)
    ensures Encoded(input)[i] != '=' ==> Value(Encoded(input)[i]).Some?
    decreases |input|
  {
    hide Quad, Digit, Value, Encoded;
    EncodedLength(input);
    EncodedLength(Rest(input));
    Unfold(input);
    if i >= 4 {
      PaddingAtEnd(Rest(input), i - 4);
    } else {
      QuadPadding(input, i);
    }
  }
}
