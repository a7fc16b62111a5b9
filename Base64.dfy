/**
 * Base64 as Ruby's `Array#pack("m0")` produces it: the alphabet of section 4
 * of RFC 4648, "=" padding of the final quantum, and no line breaks. The
 * decoder accepts exactly the canonical encodings, so that encoding and
 * decoding are inverse in both directions.
 */
module Base64 {
  import opened Wrappers
  import opened Text

  type Sextet = x: int | 0 <= x < 64

  /** The character of the standard alphabet for a six-bit value. */
  function SextetChar(v: Sextet): (c: char)
    ensures c != '=' && c != '\n' && c != '-' && c != '_'
    ensures CharSextet(c) == Some(v)
  {
    if v < 26 then (65 + v) as char        // 'A'..'Z'
    else if v < 52 then (71 + v) as char   // 'a'..'z'
    else if v < 62 then (v - 4) as char    // '0'..'9'
    else if v == 62 then '+'
    else '/'
  }

  /** The six-bit value of a character of the standard alphabet, or None for any other character. */
  function CharSextet(c: char): Option<Sextet> {
    if 'A' <= c <= 'Z' then Some(c as int - 65)
    else if 'a' <= c <= 'z' then Some(c as int - 71)
    else if '0' <= c <= '9' then Some(c as int + 4)
    else if c == '+' then Some(62)
    else if c == '/' then Some(63)
    else None
  }

  predicate InAlphabet(c: char) {
    CharSextet(c).Some?
  }

  lemma CharSextetInverse(c: char)
    requires InAlphabet(c)
    ensures SextetChar(CharSextet(c).value) == c
  {
  }

  /** Number of "=" characters that end the encoding of `n` bytes. */
  function Padding(n: nat): nat {
    (3 - n % 3) % 3
  }

  /** Three bytes regrouped as four six-bit values, most significant bits first. */
  function Split(b0: Byte, b1: Byte, b2: Byte): (c: seq<Sextet>)
    ensures |c| == 4
  {
    [b0 / 4, b0 % 4 * 16 + b1 / 16, b1 % 16 * 4 + b2 / 64, b2 % 64]
  }

  /** Four six-bit values regrouped as three bytes. */
  function Join(c: seq<Sextet>): (b: Bytes)
    requires |c| == 4
    ensures |b| == 3
  {
    [c[0] as int * 4 + c[1] / 16, c[1] as int % 16 * 16 + c[2] / 4, c[2] as int % 4 * 64 + c[3]]
  }

  lemma JoinSplit(b0: Byte, b1: Byte, b2: Byte)
    ensures Join(Split(b0, b1, b2)) == [b0, b1, b2]
  {
    var c := Split(b0, b1, b2);
    assert c[1] / 16 == b0 % 4 && c[1] % 16 == b1 / 16;
    assert c[2] / 4 == b1 % 16 && c[2] % 4 == b2 / 64;
  }

  lemma SplitJoin(c: seq<Sextet>)
    requires |c| == 4
    ensures var b := Join(c); Split(b[0], b[1], b[2]) == c
  {
    var b := Join(c);
    assert b[0] / 4 == c[0] && b[0] % 4 == c[1] / 16;
    assert b[1] / 16 == c[1] % 16 && b[1] % 16 == c[2] / 4;
    assert b[2] / 64 == c[2] % 4 && b[2] % 64 == c[3];
  }

  /** A quantum of one to three bytes, filled up with zero bytes to three. */
  function ZeroFill(q: Bytes): (p: Bytes)
    requires |q| <= 3
    ensures |p| == 3 && p[..|q|] == q
  {
    q + seq(3 - |q|, _ => 0)
  }

  /**
   * One quantum of one to three bytes: the bytes' bits in groups of six
   * (zero-filled on the right), one character per group that holds data,
   * then "=" up to four characters.
   */
  function EncodeQuantum(q: Bytes): (s: string)
    requires 1 <= |q| <= 3
    ensures |s| == 4
    ensures forall i :: 0 <= i < 4 ==> (s[i] == '=' <==> i > |q|)
    ensures forall i :: 0 <= i < 4 ==> s[i] == '=' || InAlphabet(s[i])
  {
    var p := ZeroFill(q);
    var c := Split(p[0], p[1], p[2]);
    seq(|q| + 1, i requires 0 <= i <= |q| => SextetChar(c[i])) + seq(3 - |q|, _ => '=')
  }

  /** `[bytes].pack("m0")`. */
  function Encode(b: Bytes): (s: string)
    ensures |s| == 4 * ((|b| + 2) / 3)
    ensures forall i :: 0 <= i < |s| ==> (s[i] == '=' <==> |s| - Padding(|b|) <= i)
    ensures forall i :: 0 <= i < |s| ==> s[i] == '=' || InAlphabet(s[i])
    decreases |b|
  {
    if |b| == 0 then []
    else if |b| <= 3 then EncodeQuantum(b)
    else
      var head, tail := EncodeQuantum(b[..3]), Encode(b[3..]);
      assert Padding(|b|) == Padding(|b[3..]|);
      assert forall i :: 4 <= i < |head + tail| ==> (head + tail)[i] == tail[i - 4];
      head + tail
  }

  /** How many of the four characters of a quantum carry data. */
  function DataChars(s: string, last: bool): (n: nat)
    requires |s| == 4
    ensures 2 <= n <= 4
  {
    if last && s[3] == '=' then (if s[2] == '=' then 2 else 3) else 4
  }

  /**
   * Decodes four characters. Only the last quantum (`last`) may carry
   * padding; the bits that padding drops must be zero.
   */
  function DecodeQuantum(s: string, last: bool): (r: Option<Bytes>)
    requires |s| == 4
    ensures r.Some? ==> |r.value| == DataChars(s, last) - 1
  {
    var n := DataChars(s, last);
    if !(forall i | 0 <= i < n :: InAlphabet(s[i])) then None
    else
      var c := seq(4, i requires 0 <= i < 4 => if i < n then CharSextet(s[i]).value else 0);
      var bytes := Join(c);
      if forall i | n - 1 <= i < 3 :: bytes[i] == 0 then Some(bytes[..n - 1]) else None
  }

  /** The inverse of `Encode`: None for any text that is not a canonical encoding. */
  function Decode(s: string): (r: Option<Bytes>)
    ensures r.Some? ==> |s| == 4 * ((|r.value| + 2) / 3)
    decreases |s|
  {
    if |s| == 0 then Some([])
    else if |s| < 4 then None
    else
      match DecodeQuantum(s[..4], |s| == 4)
      case None => None
      case Some(q) =>
        match Decode(s[4..])
        case None => None
        case Some(rest) => Some(q + rest)
  }

  lemma DecodeQuantumOfEncodeQuantum(q: Bytes, last: bool)
    requires 1 <= |q| <= 3
    requires |q| < 3 ==> last
    ensures DecodeQuantum(EncodeQuantum(q), last) == Some(q)
  {
    var s := EncodeQuantum(q);
    var p := ZeroFill(q);
    var split := Split(p[0], p[1], p[2]);
    var n := DataChars(s, last);
    assert n == |q| + 1;
    var c := seq(4, i requires 0 <= i < 4 => if i < n then CharSextet(s[i]).value else 0);
    assert c == split;
    JoinSplit(p[0], p[1], p[2]);
    assert Join(c) == p;
  }

  lemma EncodeQuantumOfDecodeQuantum(s: string, last: bool)
    requires |s| == 4 && DecodeQuantum(s, last).Some?
    ensures EncodeQuantum(DecodeQuantum(s, last).value) == s
  {
    var q := DecodeQuantum(s, last).value;
    var n := DataChars(s, last);
    var c := seq(4, i requires 0 <= i < 4 => if i < n then CharSextet(s[i]).value else 0);
    var bytes := Join(c);
    assert ZeroFill(q) == bytes;
    SplitJoin(c);
    var e := EncodeQuantum(q);
    forall i | 0 <= i < 4 ensures e[i] == s[i] {
      if i < n { CharSextetInverse(s[i]); }
    }
  }

  /** Decoding an encoding gives the bytes back. */
  lemma {:induction false} DecodeEncode(b: Bytes)
    ensures Decode(Encode(b)) == Some(b)
    decreases |b|
  {
    if |b| == 0 {
    } else if |b| <= 3 {
      var s := Encode(b);
      DecodeQuantumOfEncodeQuantum(b, true);
      assert s[..4] == s && s[4..] == [];
      assert Decode(s[4..]) == Some([]) && b + [] == b;
    } else {
      var s := Encode(b);
      var head, tail := EncodeQuantum(b[..3]), Encode(b[3..]);
      assert s[..4] == head && s[4..] == tail;
      DecodeQuantumOfEncodeQuantum(b[..3], false);
      DecodeEncode(b[3..]);
      assert b[..3] + b[3..] == b;
    }
  }

  /** Whatever decodes, decodes from the encoding of its result: the decoder accepts nothing else. */
  lemma {:induction false} EncodeDecode(s: string)
    requires Decode(s).Some?
    ensures Encode(Decode(s).value) == s
    decreases |s|
  {
    if |s| == 0 {
    } else {
      var b := Decode(s).value;
      var q := DecodeQuantum(s[..4], |s| == 4).value;
      var rest := Decode(s[4..]).value;
      assert b == q + rest;
      EncodeQuantumOfDecodeQuantum(s[..4], |s| == 4);
      EncodeDecode(s[4..]);
      if |s| == 4 {
        assert rest == [] && b == q;
      } else {
        assert |rest| > 0;
        assert b[..3] == q && b[3..] == rest;
        assert s == s[..4] + s[4..];
      }
    }
  }

  /** The character at a data position of a quantum comes from the zero-filled bytes' six-bit groups. */
  lemma EncodeQuantumChar(q: Bytes, i: nat)
    requires 1 <= |q| <= 3 && i <= |q|
    ensures var p := ZeroFill(q); EncodeQuantum(q)[i] == SextetChar(Split(p[0], p[1], p[2])[i])
  {
  }

  /** Known values of the standard alphabet and bit order: "Man" encodes as "TWFu". */
  lemma EncodeThreeBytes()
    ensures Encode([77, 97, 110]) == "TWFu"
  {
    var q: Bytes := [77, 97, 110];
    var e := EncodeQuantum(q);
    assert ZeroFill(q) == q;
    assert e[0] == 'T' by { EncodeQuantumChar(q, 0); assert Split(77, 97, 110)[0] == 19; }
    assert e[1] == 'W' by { EncodeQuantumChar(q, 1); assert Split(77, 97, 110)[1] == 22; }
    assert e[2] == 'F' by { EncodeQuantumChar(q, 2); assert Split(77, 97, 110)[2] == 5; }
    assert e[3] == 'u' by { EncodeQuantumChar(q, 3); assert Split(77, 97, 110)[3] == 46; }
    assert Encode(q) == e;
  }

  /** One byte leaves two padding characters: "M" encodes as "TQ==". */
  lemma EncodeOneByte()
    ensures Encode([77]) == "TQ=="
  {
    var q: Bytes := [77];
    var e := EncodeQuantum(q);
    assert e[0] == 'T' by { EncodeQuantumChar(q, 0); assert ZeroFill(q) == [77, 0, 0]; assert Split(77, 0, 0)[0] == 19; }
    assert e[1] == 'Q' by { EncodeQuantumChar(q, 1); assert ZeroFill(q) == [77, 0, 0]; assert Split(77, 0, 0)[1] == 16; }
    assert e[2] == '=' && e[3] == '=';
    assert Encode(q) == e;
  }

  /** The last two values of the alphabet are "+" and "/": 0xFB 0xFF encodes as "+/8=". */
  lemma EncodeTwoBytes()
    ensures Encode([251, 255]) == "+/8="
  {
    var q: Bytes := [251, 255];
    var e := EncodeQuantum(q);
    assert e[0] == '+' by { EncodeQuantumChar(q, 0); assert ZeroFill(q) == [251, 255, 0]; assert Split(251, 255, 0)[0] == 62; }
    assert e[1] == '/' by { EncodeQuantumChar(q, 1); assert ZeroFill(q) == [251, 255, 0]; assert Split(251, 255, 0)[1] == 63; }
    assert e[2] == '8' by { EncodeQuantumChar(q, 2); assert ZeroFill(q) == [251, 255, 0]; assert Split(251, 255, 0)[2] == 60; }
    assert e[3] == '=';
    assert Encode(q) == e;
  }

  /** A final quantum whose padding would drop non-zero bits is rejected: "TR==" is not an encoding. */
  lemma DecodeRejectsNonCanonical()
    ensures Decode("TR==") == None
  {
    var s := "TR==";
    assert s[..4] == s;
    assert DataChars(s, true) == 2;
    assert CharSextet('T') == Some(19) && CharSextet('R') == Some(17);
    var c := seq(4, i requires 0 <= i < 4 => if i < 2 then CharSextet(s[i]).value else 0);
    assert c == [19, 17, 0, 0];
    assert Join(c)[1] == 16;
    assert DecodeQuantum(s, true) == None;
  }

  /** `Decode` is exactly the inverse of `Encode`. */
  lemma DecodeIffEncode(s: string, b: Bytes)
    ensures Decode(s) == Some(b) <==> Encode(b) == s
  {
    if Decode(s) == Some(b) {
      EncodeDecode(s);
    }
    if Encode(b) == s {
      DecodeEncode(b);
    }
  }
}
