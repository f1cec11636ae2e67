/** The text of an API key: the URL-safe base64 of RFC 4648 section 5 without padding, and the key built on it. */
module ApiKeys {
  import opened Wrappers
  import opened Text

  newtype byte = x: int | 0 <= x < 256

  function Symbol(d: int): char
    requires 0 <= d < 64
  {
    if d < 26 then (65 + d) as char
    else if d < 52 then (71 + d) as char
    else if d < 62 then (d - 4) as char
    else if d == 62 then '-'
    else '_'
  }

  function Value(c: char): Option<int> {
    if 'A' <= c <= 'Z' then Some(c as int - 65)
    else if 'a' <= c <= 'z' then Some(c as int - 71)
    else if '0' <= c <= '9' then Some(c as int + 4)
    else if c == '-' then Some(62)
    else if c == '_' then Some(63)
    else None
  }

  lemma ValueOfSymbol(d: int)
    requires 0 <= d < 64
    ensures Value(Symbol(d)) == Some(d)
    ensures Symbol(d) != '.' && !IsSpace(Symbol(d))
  {
  }

  function EncodeThree(b0: int, b1: int, b2: int): string
    requires 0 <= b0 < 256 && 0 <= b1 < 256 && 0 <= b2 < 256
  {
    [Symbol(b0 / 4), Symbol(b0 % 4 * 16 + b1 / 16), Symbol(b1 % 16 * 4 + b2 / 64), Symbol(b2 % 64)]
  }

  /** Three bytes become four symbols; a tail of one or two bytes becomes two or three. */
  function Encode(b: seq<byte>): string {
    if |b| == 0 then ""
    else
      var b0 := b[0] as int;
      if |b| == 1 then [Symbol(b0 / 4), Symbol(b0 % 4 * 16)]
      else
        var b1 := b[1] as int;
        if |b| == 2 then [Symbol(b0 / 4), Symbol(b0 % 4 * 16 + b1 / 16), Symbol(b1 % 16 * 4)]
        else
          var b2 := b[2] as int;
          EncodeThree(b0, b1, b2) + Encode(b[3..])
  }

  function Decode(s: string): Option<seq<byte>> {
    if |s| == 0 then Some([])
    else if |s| == 1 then None
    else match (Value(s[0]), Value(s[1]))
      case (Some(v0), Some(v1)) =>
        var b0 := (v0 * 4 + v1 / 16) as byte;
        if |s| == 2 then Some([b0])
        else (match Value(s[2])
          case Some(v2) =>
            var b1 := (v1 % 16 * 16 + v2 / 4) as byte;
            if |s| == 3 then Some([b0, b1])
            else (match (Value(s[3]), Decode(s[4..]))
              case (Some(v3), Some(rest)) => Some([b0, b1, (v2 % 4 * 64 + v3) as byte] + rest)
              case _ => None)
          case None => None)
      case _ => None
  }

  lemma Recombine(b0: int, b1: int)
    requires 0 <= b0 < 256 && 0 <= b1 < 256
    ensures b0 / 4 * 4 + (b0 % 4 * 16 + b1 / 16) / 16 == b0
    ensures (b0 % 4 * 16 + b1 / 16) % 16 * 16 + b1 % 16 * 4 / 4 == b1
  {
  }

  lemma DecodeEncodeOne(b: seq<byte>)
    requires |b| == 1
    ensures Decode(Encode(b)) == Some(b)
  {
    hide Symbol, Value, Decode, IsSpace;
    var b0 := b[0] as int;
    ValueOfSymbol(b0 / 4);
    ValueOfSymbol(b0 % 4 * 16);
    assert b0 / 4 * 4 + b0 % 4 * 16 / 16 == b0;
    assert b == [b0 as byte];
    DecodeTail(Encode(b), b0 / 4, b0 % 4 * 16, 0);
  }

  lemma DecodeEncodeTwo(b: seq<byte>)
    requires |b| == 2
    ensures Decode(Encode(b)) == Some(b)
  {
    hide Symbol, Value, Decode, IsSpace;
    var b0, b1 := b[0] as int, b[1] as int;
    ValueOfSymbol(b0 / 4);
    ValueOfSymbol(b0 % 4 * 16 + b1 / 16);
    ValueOfSymbol(b1 % 16 * 4);
    Recombine(b0, b1);
    assert b == [b0 as byte, b1 as byte];
    DecodeTail(Encode(b), b0 / 4, b0 % 4 * 16 + b1 / 16, b1 % 16 * 4);
  }

  lemma DecodeTail(s: string, v0: int, v1: int, v2: int)
    requires |s| == 2 || |s| == 3
    requires 0 <= v0 < 64 && 0 <= v1 < 64 && 0 <= v2 < 64
    requires Value(s[0]) == Some(v0) && Value(s[1]) == Some(v1) && (|s| == 3 ==> Value(s[2]) == Some(v2))
    ensures |s| == 2 ==> Decode(s) == Some([(v0 * 4 + v1 / 16) as byte])
    ensures |s| == 3 ==> Decode(s) == Some([(v0 * 4 + v1 / 16) as byte, (v1 % 16 * 16 + v2 / 4) as byte])
  {
  }

  lemma {:induction false} DecodeEncode(b: seq<byte>)
    ensures Decode(Encode(b)) == Some(b)
  {
    if |b| == 1 {
      DecodeEncodeOne(b);
    } else if |b| == 2 {
      DecodeEncodeTwo(b);
    } else if |b| > 2 {
      DecodeEncode(b[3..]);
      DecodeEncodeThree(b[0], b[1], b[2], Encode(b[3..]));
      assert b == [b[0], b[1], b[2]] + b[3..];
    }
  }

  lemma DecodeEncodeThree(b0: byte, b1: byte, b2: byte, rest: string)
    requires Decode(rest).Some?
    ensures Decode(EncodeThree(b0 as int, b1 as int, b2 as int) + rest) == Some([b0, b1, b2] + Decode(rest).value)
  {
    hide Symbol, Value, Decode, IsSpace;
    var x, y, z := b0 as int, b1 as int, b2 as int;
    ValueOfSymbol(x / 4);
    ValueOfSymbol(x % 4 * 16 + y / 16);
    ValueOfSymbol(y % 16 * 4 + z / 64);
    ValueOfSymbol(z % 64);
    var e := EncodeThree(x, y, z) + rest;
    assert e[4..] == rest;
    DecodeStep(e, x / 4, x % 4 * 16 + y / 16, y % 16 * 4 + z / 64, z % 64);
    RecombineThree(x, y, z);
  }

  lemma RecombineThree(b0: int, b1: int, b2: int)
    requires 0 <= b0 < 256 && 0 <= b1 < 256 && 0 <= b2 < 256
    ensures b0 / 4 * 4 + (b0 % 4 * 16 + b1 / 16) / 16 == b0
    ensures (b0 % 4 * 16 + b1 / 16) % 16 * 16 + (b1 % 16 * 4 + b2 / 64) / 4 == b1
    ensures (b1 % 16 * 4 + b2 / 64) % 4 * 64 + b2 % 64 == b2
  {
  }

  lemma DecodeStep(s: string, v0: int, v1: int, v2: int, v3: int)
    requires |s| >= 4 && 0 <= v0 < 64 && 0 <= v1 < 64 && 0 <= v2 < 64 && 0 <= v3 < 64
    requires Value(s[0]) == Some(v0) && Value(s[1]) == Some(v1)
    requires Value(s[2]) == Some(v2) && Value(s[3]) == Some(v3)
    requires Decode(s[4..]).Some?
    ensures Decode(s) == Some([(v0 * 4 + v1 / 16) as byte, (v1 % 16 * 16 + v2 / 4) as byte,
                               (v2 % 4 * 64 + v3) as byte] + Decode(s[4..]).value)
  {
  }

  predicate KeyText(s: string) {
    forall c | c in s :: c != '.' && !IsSpace(c)
  }

  lemma {:induction false} EncodeText(b: seq<byte>)
    ensures |Encode(b)| == (4 * |b| + 2) / 3
    ensures KeyText(Encode(b))
  {
    forall d | 0 <= d < 64 ensures Symbol(d) != '.' && !IsSpace(Symbol(d)) {
      ValueOfSymbol(d);
    }
    if |b| >= 3 {
      EncodeText(b[3..]);
    }
  }

  /** Table 2 of RFC 4648. */
  const ALPHABET := CAPITALS + SMALL + DIGITS + "-_"

  lemma SymbolsOfTheAlphabet(d: nat)
    requires d < 64
    ensures |ALPHABET| == 64 && Symbol(d) == ALPHABET[d]
  {
    Rows();
    if d < 26 {
      assert ALPHABET[d] == CAPITALS[d];
    } else if d < 52 {
      assert ALPHABET[d] == SMALL[d - 26];
    } else if d < 62 {
      assert ALPHABET[d] == DIGITS[d - 52];
    }
  }

  lemma DigitsOfNumber(d0: int, d1: int, d2: int, d3: int, w: int)
    requires 0 <= d0 < 64 && 0 <= d1 < 64 && 0 <= d2 < 64 && 0 <= d3 < 64
    requires w == ((d0 * 64 + d1) * 64 + d2) * 64 + d3
    ensures w / 262144 == d0 && w / 4096 % 64 == d1 && w / 64 % 64 == d2 && w % 64 == d3
  {
    assert w / 64 == (d0 * 64 + d1) * 64 + d2;
    assert w / 4096 == d0 * 64 + d1;
  }

  lemma DigitsOfGroup(b0: int, b1: int, b2: int)
    requires 0 <= b0 < 256 && 0 <= b1 < 256 && 0 <= b2 < 256
    ensures var w := b0 * 65536 + b1 * 256 + b2;
            && w / 262144 == b0 / 4 && w / 4096 % 64 == b0 % 4 * 16 + b1 / 16
            && w / 64 % 64 == b1 % 16 * 4 + b2 / 64 && w % 64 == b2 % 64
  {
    DigitsOfNumber(b0 / 4, b0 % 4 * 16 + b1 / 16, b1 % 16 * 4 + b2 / 64, b2 % 64, b0 * 65536 + b1 * 256 + b2);
  }

  /** Section 4 of RFC 4648: the symbols of three bytes are the four digits, to base 64, of the 24-bit number the bytes
      make, and a tail is encoded as if zero bytes followed, without the symbols these would add. */
  lemma GroupIsBigEndian(b0: byte, b1: byte, b2: byte)
    ensures var w := b0 as int * 65536 + b1 as int * 256 + b2 as int;
            Encode([b0, b1, b2]) == [Symbol(w / 262144), Symbol(w / 4096 % 64), Symbol(w / 64 % 64), Symbol(w % 64)]
    ensures Encode([b0, b1]) == Encode([b0, b1, 0])[..3] && Encode([b0]) == Encode([b0, 0, 0])[..2]
  {
    DigitsOfGroup(b0 as int, b1 as int, b2 as int);
    assert [b0, b1, b2][3..] == [] && [b0, b1, 0][3..] == [] && [b0, 0, 0][3..] == [];
    hide Symbol;
  }

  const KEY_MARK := "bh_"

  /** The secret handed to the user: `bh_` and the encoded random bytes. */
  function Token(secret: seq<byte>): string {
    KEY_MARK + Encode(secret)
  }

  /** The part of the token that is stored and shown in listings. */
  function DisplayPrefix(token: string): string {
    if |token| > 12 then token[..12] else token
  }

  lemma TokenShape(secret: seq<byte>)
    requires |secret| == 32
    ensures |Token(secret)| == 46
    ensures |DisplayPrefix(Token(secret))| == 12 && DisplayPrefix(Token(secret)) <= Token(secret)
    ensures KeyText(Token(secret)) && KEY_MARK <= Token(secret)
  {
    EncodeText(secret);
  }

  lemma TokenInjective(a: seq<byte>, b: seq<byte>)
    requires Token(a) == Token(b)
    ensures a == b
  {
    assert Encode(a) == Token(a)[3..] == Token(b)[3..] == Encode(b);
    DecodeEncode(a);
    DecodeEncode(b);
  }

  /** Fills the buffer's encoding into the token, as the generator does. */
  method GenerateUserAPIKey(buffer: array<byte>) returns (full: string, prefix: string)
    requires buffer.Length == 32
    ensures full == Token(buffer[..]) && |full| == 46 && prefix == full[..12]
  {
    TokenShape(buffer[..]);
    full := KEY_MARK + Encode(buffer[..]);
    prefix := full;
    if |full| > 12 {
      prefix := full[..12];
    }
  }
}
