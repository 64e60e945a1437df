/**
 * The standard base64 alphabet with '=' padding, section 4 of RFC 4648, as
 * encoding/base64's StdEncoding applies it: carriage returns and line feeds in
 * the input are skipped, the input must then consist of whole 4-symbol
 * quanta, padding may close only the last quantum, and the unused low bits of
 * a padded quantum are not checked (the encoding is not in strict mode).
 */
module Base64 {
  import opened Wrappers

  type byte = x: int | 0 <= x < 256
  type sextet = x: int | 0 <= x < 64

  const Pad := '='

  predicate IsSymbol(c: char) {
    'A' <= c <= 'Z' || 'a' <= c <= 'z' || '0' <= c <= '9' || c == '+' || c == '/'
  }

  /** The 6-bit value of an alphabet symbol. */
  function ValueOf(c: char): sextet
    requires IsSymbol(c)
  {
    if 'A' <= c <= 'Z' then c as int - 'A' as int
    else if 'a' <= c <= 'z' then c as int - 'a' as int + 26
    else if '0' <= c <= '9' then c as int - '0' as int + 52
    else if c == '+' then 62
    else 63
  }

  /** The alphabet symbol of a 6-bit value. */
  function SymbolOf(v: sextet): (c: char)
    ensures IsSymbol(c) && ValueOf(c) == v
  {
    if v < 26 then ('A' as int + v) as char
    else if v < 52 then ('a' as int + v - 26) as char
    else if v < 62 then ('0' as int + v - 52) as char
    else if v == 62 then '+'
    else '/'
  }

  /** Three bytes as four symbols. */
  function EncodeQuantum(b0: byte, b1: byte, b2: byte): (q: string)
    ensures |q| == 4 && forall i :: 0 <= i < 4 ==> IsSymbol(q[i])
  {
    [SymbolOf(b0 / 4), SymbolOf((b0 % 4) * 16 + b1 / 16), SymbolOf((b1 % 16) * 4 + b2 / 64), SymbolOf(b2 % 64)]
  }

  /** Encode: whole quanta, the last one padded with "=" or "==". */
  function Encode(data: seq<byte>): (s: string)
    ensures forall i :: 0 <= i < |s| ==> s[i] != '\n' && s[i] != '\r'
    decreases |data|
  {
    if |data| == 0 then ""
    else if |data| == 1 then [SymbolOf(data[0] / 4), SymbolOf((data[0] % 4) * 16), Pad, Pad]
    else if |data| == 2 then
      [SymbolOf(data[0] / 4), SymbolOf((data[0] % 4) * 16 + data[1] / 16), SymbolOf((data[1] % 16) * 4), Pad]
    else EncodeQuantum(data[0], data[1], data[2]) + Encode(data[3..])
  }

  /** Every three bytes, and a last one or two, take four symbols. */
  lemma {:induction false} EncodeLength(data: seq<byte>)
    ensures |Encode(data)| == (|data| + 2) / 3 * 4
    decreases |data|
  {
    if |data| >= 3 {
      EncodeLength(data[3..]);
    }
  }

  /** The input with every '\r' and '\n' removed. */
  function SkipNewlines(s: string): (t: string)
    ensures |t| <= |s|
  {
    if |s| == 0 then ""
    else if s[0] == '\n' || s[0] == '\r' then SkipNewlines(s[1..])
    else [s[0]] + SkipNewlines(s[1..])
  }

  /** A final quantum: four symbols, three symbols and "=", or two symbols and "==". */
  function DecodeLast(q: string): Option<seq<byte>>
    requires |q| == 4
  {
    if !IsSymbol(q[0]) || !IsSymbol(q[1]) then None
    else
      var v0, v1 := ValueOf(q[0]), ValueOf(q[1]);
      if q[2] == Pad && q[3] == Pad then Some([v0 * 4 + v1 / 16])
      else if !IsSymbol(q[2]) then None
      else
        var v2 := ValueOf(q[2]);
        if q[3] == Pad then Some([v0 * 4 + v1 / 16, (v1 % 16) * 16 + v2 / 4])
        else if !IsSymbol(q[3]) then None
        else Some(DecodeQuantum(v0, v1, v2, ValueOf(q[3])))
  }

  /** Four symbol values as three bytes. */
  function DecodeQuantum(v0: sextet, v1: sextet, v2: sextet, v3: sextet): (b: seq<byte>)
    ensures |b| == 3
  {
    [v0 * 4 + v1 / 16, (v1 % 16) * 16 + v2 / 4, (v2 % 4) * 64 + v3]
  }

  /** Decoding of newline-free input: whole quanta, only the last one padded. */
  function DecodeQuanta(t: string): Option<seq<byte>>
    decreases |t|
  {
    if |t| == 0 then Some([])
    else if |t| < 4 then None
    else if |t| == 4 then DecodeLast(t)
    else if IsSymbol(t[0]) && IsSymbol(t[1]) && IsSymbol(t[2]) && IsSymbol(t[3]) then
      match DecodeQuanta(t[4..])
      case None => None
      case Some(rest) => Some(DecodeQuantum(ValueOf(t[0]), ValueOf(t[1]), ValueOf(t[2]), ValueOf(t[3])) + rest)
    else None
  }

  /** DecodeString: None stands for the decoding error. */
  function Decode(s: string): Option<seq<byte>> {
    DecodeQuanta(SkipNewlines(s))
  }

  /** A string all of whose characters are bytes (Go strings are byte strings). */
  predicate IsByteString(s: string) {
    forall i :: 0 <= i < |s| ==> s[i] as int < 256
  }

  /** []byte(s) for a byte string. */
  function ToBytes(s: string): (d: seq<byte>)
    requires IsByteString(s)
    ensures |d| == |s| && forall i :: 0 <= i < |s| ==> d[i] == s[i] as int
  {
    seq(|s|, i requires 0 <= i < |s| => s[i] as int)
  }

  /** string(d) for bytes d. */
  function ToText(d: seq<byte>): (s: string)
    ensures |s| == |d| && IsByteString(s)
    ensures forall i :: 0 <= i < |d| ==> s[i] as int == d[i]
  {
    seq(|d|, i requires 0 <= i < |d| => d[i] as char)
  }

  lemma TextOfBytes(s: string)
    requires IsByteString(s)
    ensures ToText(ToBytes(s)) == s
  {
  }

  /** Input without newlines is left alone by SkipNewlines. */
  lemma {:induction false} SkipNewlinesNone(s: string)
    requires forall i :: 0 <= i < |s| ==> s[i] != '\n' && s[i] != '\r'
    ensures SkipNewlines(s) == s
    decreases |s|
  {
    if |s| > 0 {
      SkipNewlinesNone(s[1..]);
      assert s == [s[0]] + s[1..];
    }
  }

  /** A full quantum decodes back to the three bytes it encodes. */
  lemma QuantumRoundTrip(b0: byte, b1: byte, b2: byte)
    ensures var q := EncodeQuantum(b0, b1, b2);
      DecodeQuantum(ValueOf(q[0]), ValueOf(q[1]), ValueOf(q[2]), ValueOf(q[3])) == [b0, b1, b2]
  {
    var v0, v1, v2, v3 := b0 / 4, (b0 % 4) * 16 + b1 / 16, (b1 % 16) * 4 + b2 / 64, b2 % 64;
    assert v1 / 16 == b0 % 4 && v1 % 16 == b1 / 16;
    assert v2 / 4 == b1 % 16 && v2 % 4 == b2 / 64;
    assert v0 * 4 + v1 / 16 == b0;
    assert (v1 % 16) * 16 + v2 / 4 == b1;
    assert (v2 % 4) * 64 + v3 == b2;
  }

  /** A quantum padded with "=" decodes back to its two bytes. */
  lemma Pad1RoundTrip(b0: byte, b1: byte)
    ensures DecodeLast([SymbolOf(b0 / 4), SymbolOf((b0 % 4) * 16 + b1 / 16), SymbolOf((b1 % 16) * 4), Pad]) == Some([b0, b1])
  {
    var v1, v2 := (b0 % 4) * 16 + b1 / 16, (b1 % 16) * 4;
    assert v1 / 16 == b0 % 4 && v1 % 16 == b1 / 16;
    assert v2 / 4 == b1 % 16;
  }

  /** A quantum padded with "==" decodes back to its byte. */
  lemma Pad2RoundTrip(b0: byte)
    ensures DecodeLast([SymbolOf(b0 / 4), SymbolOf((b0 % 4) * 16), Pad, Pad]) == Some([b0])
  {
    var v1 := (b0 % 4) * 16;
    assert v1 / 16 == b0 % 4;
  }

  /** A full quantum in front of more quanta is decoded on its own. */
  lemma DecodeQuantaCons(q: string, rest: string)
    requires |q| == 4 && forall i :: 0 <= i < 4 ==> IsSymbol(q[i])
    requires DecodeQuanta(rest).Some?
    ensures DecodeQuanta(q + rest)
      == Some(DecodeQuantum(ValueOf(q[0]), ValueOf(q[1]), ValueOf(q[2]), ValueOf(q[3])) + DecodeQuanta(rest).value)
  {
    var t := q + rest;
    if |rest| == 0 {
      assert t == q;
      assert q[2] != Pad && q[3] != Pad;
      var d := DecodeQuantum(ValueOf(q[0]), ValueOf(q[1]), ValueOf(q[2]), ValueOf(q[3]));
      assert DecodeLast(q) == Some(d);
      assert d + DecodeQuanta(rest).value == d;
    } else {
      assert t[..4] == q && t[4..] == rest;
    }
  }

  /** The encoding of one byte decodes back to it. */
  lemma DecodeQuantaEncodeOne(data: seq<byte>)
    requires |data| == 1
    ensures DecodeQuanta(Encode(data)) == Some(data)
  {
    Pad2RoundTrip(data[0]);
    assert data == [data[0]];
  }

  /** The encoding of two bytes decodes back to them. */
  lemma DecodeQuantaEncodeTwo(data: seq<byte>)
    requires |data| == 2
    ensures DecodeQuanta(Encode(data)) == Some(data)
  {
    Pad1RoundTrip(data[0], data[1]);
    assert data == [data[0], data[1]];
  }

  /** Three or more bytes are encoded as a full quantum and the rest. */
  lemma EncodeFront(data: seq<byte>)
    requires |data| >= 3
    ensures Encode(data) == EncodeQuantum(data[0], data[1], data[2]) + Encode(data[3..])
  {
  }

  lemma SplitFront<T>(s: seq<T>)
    requires |s| >= 3
    ensures s == [s[0], s[1], s[2]] + s[3..]
  {
  }

  /** The quantum of three bytes in front of decodable text decodes to
      those bytes in front of the text's decoding. */
  lemma QuantumCons(b0: byte, b1: byte, b2: byte, rest: string)
    requires DecodeQuanta(rest).Some?
    ensures DecodeQuanta(EncodeQuantum(b0, b1, b2) + rest) == Some([b0, b1, b2] + DecodeQuanta(rest).value)
  {
    QuantumRoundTrip(b0, b1, b2);
    DecodeQuantaCons(EncodeQuantum(b0, b1, b2), rest);
  }

  /** The first three bytes are a full quantum in front of the encoding of
      the rest, so the round trip of the rest extends to the whole. */
  lemma DecodeQuantaEncodeStep(data: seq<byte>)
    requires |data| >= 3
    requires DecodeQuanta(Encode(data[3..])) == Some(data[3..])
    ensures DecodeQuanta(Encode(data)) == Some(data)
  {
    EncodeFront(data);
    QuantumCons(data[0], data[1], data[2], Encode(data[3..]));
    SplitFront(data);
  }

  /** Round trip on newline-free text. */
  lemma {:induction false} DecodeQuantaEncode(data: seq<byte>)
    ensures DecodeQuanta(Encode(data)) == Some(data)
    decreases |data|
  {
    if |data| >= 3 {
      DecodeQuantaEncode(data[3..]);
      DecodeQuantaEncodeStep(data);
    } else if |data| == 2 {
      DecodeQuantaEncodeTwo(data);
    } else if |data| == 1 {
      DecodeQuantaEncodeOne(data);
    }
  }

  /** Decoding the encoding of any bytes gives those bytes back. */
  lemma DecodeEncode(data: seq<byte>)
    ensures Decode(Encode(data)) == Some(data)
  {
    SkipNewlinesNone(Encode(data));
    DecodeQuantaEncode(data);
  }
}
