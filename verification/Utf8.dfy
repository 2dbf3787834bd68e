/**
 UTF-8 as the chunker meets it: an encoder (section 3 of RFC 3629), the byte syntax a
 decoder checks (section 4 of RFC 3629), and Python's incremental decoder, an object that
 keeps the bytes of a character that is not complete yet.
 */
module Utf8 {
  import opened Wrappers

  type Byte = b: int | 0 <= b < 256
  type Scalar = c: int | 0 <= c < 0xD800 || 0xE000 <= c <= 0x10FFFF
  type Text = seq<Scalar>

  // ---------------------------------------------------------------- encoding

  function EncodeScalar(c: Scalar): (r: seq<Byte>)
    ensures 1 <= |r| <= 4
  {
    if c < 0x80 then [c]
    else if c < 0x800 then [0xC0 + c / 64, 0x80 + c % 64]
    else if c < 0x10000 then [0xE0 + c / 4096, 0x80 + c / 64 % 64, 0x80 + c % 64]
    else [0xF0 + c / 262144, 0x80 + c / 4096 % 64, 0x80 + c / 64 % 64, 0x80 + c % 64]
  }

  function Encode(t: Text): seq<Byte> {
    if t == [] then [] else EncodeScalar(t[0]) + Encode(t[1..])
  }

  /** Well-formed UTF-8: the encoding of some text. */
  ghost predicate WellFormed(b: seq<Byte>) {
    exists t: Text :: Encode(t) == b
  }

  // ---------------------------------------------------------------- decoding

  /** What a decoder makes of the front of its input. */
  datatype Head = Char(c: Scalar, size: nat) | Partial | Malformed

  predicate InRange(b: Byte, lo: int, hi: int) { lo <= b <= hi }

  /** The least byte that may follow lead byte b0 of a multi-byte character. */
  function SecondLow(b0: Byte): Byte { if b0 == 0xE0 then 0xA0 else if b0 == 0xF0 then 0x90 else 0x80 }

  /** The greatest byte that may follow lead byte b0 of a multi-byte character. */
  function SecondHigh(b0: Byte): Byte { if b0 == 0xED then 0x9F else if b0 == 0xF4 then 0x8F else 0xBF }

  function DecodeHead(b: seq<Byte>): Head
    requires b != []
  {
    var b0: int := b[0];
    if b0 < 0x80 then Char(b0, 1)
    else if !InRange(b0, 0xC2, 0xF4) then Malformed
    else if |b| < 2 then Partial
    else if !InRange(b[1], SecondLow(b0), SecondHigh(b0)) then Malformed
    else
      var b1: int := b[1];
      if b0 < 0xE0 then Char((b0 - 0xC0) * 64 + (b1 - 0x80), 2)
      else if |b| < 3 then Partial
      else if !InRange(b[2], 0x80, 0xBF) then Malformed
      else
        var b2: int := b[2];
        if b0 < 0xF0 then Char((b0 - 0xE0) * 4096 + (b1 - 0x80) * 64 + (b2 - 0x80), 3)
        else if |b| < 4 then Partial
        else if !InRange(b[3], 0x80, 0xBF) then Malformed
        else
          var b3: int := b[3];
          Char((b0 - 0xF0) * 262144 + (b1 - 0x80) * 4096 + (b2 - 0x80) * 64 + (b3 - 0x80), 4)
  }

  /** Every complete character at the front of the input, and the bytes left over. */
  datatype Drained = Drained(text: Text, rest: seq<Byte>) | Invalid

  function Drain(b: seq<Byte>): (r: Drained)
    ensures r.Drained? ==> |r.rest| <= |b|
    decreases |b|
  {
    if b == [] then Drained([], [])
    else match DecodeHead(b)
      case Partial => Drained([], b)
      case Malformed => Invalid
      case Char(c, n) =>
        HeadSize(b);
        Prepend([c], Drain(b[n..]))
  }

  function Prepend(t: Text, d: Drained): Drained {
    if d.Invalid? then Invalid else Drained(t + d.text, d.rest)
  }

  /** Strict decoding of a whole byte string, as bytes.decode does it. */
  function Decode(b: seq<Byte>): Option<Text> {
    match Drain(b)
    case Drained(t, rest) => if rest == [] then Some(t) else None
    case Invalid => None
  }

  // -------------------------------------------- one character: encode and decode

  lemma HeadSize(b: seq<Byte>)
    requires b != []
    ensures DecodeHead(b).Char? ==> 1 <= DecodeHead(b).size <= |b|
  {}

  /** A character in front of any bytes is read back whole. */
  lemma HeadOfEncoding(c: Scalar, rest: seq<Byte>)
    ensures DecodeHead(EncodeScalar(c) + rest) == Char(c, |EncodeScalar(c)|)
  {
    var e: seq<Byte> := EncodeScalar(c);
    var b := e + rest;
    var i: int := c;
    Digits64(i);
    assert b[0] == e[0];
    if 0x80 <= i { assert b[1] == e[1]; }
    if 0x800 <= i { assert b[2] == e[2]; }
    if 0x10000 <= i { assert b[3] == e[3]; }
  }

  /** The base-64 digits of a number, as the encoder takes them. */
  lemma Digits64(i: int)
    requires 0 <= i <= 0x10FFFF
    ensures i == i / 64 * 64 + i % 64
    ensures i / 64 == i / 4096 * 64 + i / 64 % 64
    ensures i / 4096 == i / 262144 * 64 + i / 4096 % 64
  {}

  lemma Compose64(q: int, r: int)
    requires 0 <= q && 0 <= r < 64
    ensures (q * 64 + r) / 64 == q && (q * 64 + r) % 64 == r
  {}

  /** Numbers written with four base-64 digits, cut as the encoder cuts them. */
  lemma Compose262144(h: int, m: int, k: int, l: int)
    requires 0 <= h && 0 <= m < 64 && 0 <= k < 64 && 0 <= l < 64
    ensures var c := h * 262144 + m * 4096 + k * 64 + l;
            c / 262144 == h && c / 4096 % 64 == m && c / 64 % 64 == k && c % 64 == l
            && (h == 0 ==> c / 4096 == m) && (h == m == 0 ==> c / 64 == k)
  {
    var mid := h * 4096 + m * 64 + k;
    Compose64(mid, l);
    Compose64(h * 64 + m, k);
    Compose64(h, m);
    var c := h * 262144 + m * 4096 + k * 64 + l;
    assert c / 64 == mid;
    assert c / 4096 == mid / 64 && mid / 64 == h * 64 + m;
    assert c / 262144 == (h * 64 + m) / 64;
  }

  /** The syntax admits no second spelling: what is read is the encoding of the character read. */
  lemma EncodingOfHead(b: seq<Byte>)
    requires b != [] && DecodeHead(b).Char?
    ensures 1 <= DecodeHead(b).size <= |b|
    ensures b[..DecodeHead(b).size] == EncodeScalar(DecodeHead(b).c)
  {
    var b0: int, n := b[0], DecodeHead(b).size;
    if n == 2 {
      Compose262144(0, 0, b0 - 0xC0, b[1] as int - 0x80);
    } else if n == 3 {
      Compose262144(0, b0 - 0xE0, b[1] as int - 0x80, b[2] as int - 0x80);
    } else if n == 4 {
      Compose262144(b0 - 0xF0, b[1] as int - 0x80, b[2] as int - 0x80, b[3] as int - 0x80);
    }
  }

  /** More input changes the verdict only where a character was cut short. */
  lemma HeadExtends(p: seq<Byte>, q: seq<Byte>)
    requires p != [] && !DecodeHead(p).Partial?
    ensures DecodeHead(p + q) == DecodeHead(p)
  {}

  // ------------------------------------------------------- texts and byte strings

  lemma DrainOneMore(c: Scalar, tail: seq<Byte>)
    ensures Drain(EncodeScalar(c) + tail) == Prepend([c], Drain(tail))
  {
    hide EncodeScalar, DecodeHead;
    var e := EncodeScalar(c);
    HeadOfEncoding(c, tail);
    assert (e + tail)[|e|..] == tail;
  }

  lemma {:induction false} DrainOfEncoding(t: Text, rest: seq<Byte>)
    ensures Drain(Encode(t) + rest) == Prepend(t, Drain(rest))
  {
    hide EncodeScalar, DecodeHead, Drain;
    if t == [] {
      assert Encode(t) + rest == rest;
      if Drain(rest).Drained? { assert t + Drain(rest).text == Drain(rest).text; }
    } else {
      var tail := Encode(t[1..]) + rest;
      assert Encode(t) + rest == EncodeScalar(t[0]) + tail;
      DrainOneMore(t[0], tail);
      DrainOfEncoding(t[1..], rest);
      if Drain(rest).Drained? {
        assert [t[0]] + (t[1..] + Drain(rest).text) == t + Drain(rest).text;
      }
    }
  }

  lemma {:induction false} EncodingOfDrain(b: seq<Byte>)
    requires Drain(b).Drained?
    ensures b == Encode(Drain(b).text) + Drain(b).rest
    decreases |b|
  {
    hide EncodeScalar, DecodeHead;
    if b != [] && DecodeHead(b).Char? {
      HeadSize(b);
      var n := DecodeHead(b).size;
      EncodingOfHead(b);
      EncodingOfDrain(b[n..]);
      var tail := Drain(b[n..]);
      assert Drain(b).text == [DecodeHead(b).c] + tail.text;
      assert Drain(b).text[1..] == tail.text;
      assert b == b[..n] + b[n..];
    }
  }

  /** Decoding inverts encoding, for every text. */
  lemma DecodeEncode(t: Text)
    ensures Decode(Encode(t)) == Some(t)
  {
    DrainOfEncoding(t, []);
    assert Encode(t) + [] == Encode(t) && t + [] == t;
  }

  /** A byte string decodes exactly when it is well formed, and to the text it encodes. */
  lemma DecodesIffWellFormed(b: seq<Byte>)
    ensures Decode(b).Some? <==> WellFormed(b)
    ensures Decode(b).Some? ==> Encode(Decode(b).value) == b
  {
    if Decode(b).Some? {
      EncodingOfDrain(b);
      assert Encode(Decode(b).value) + [] == Encode(Decode(b).value);
    }
    if WellFormed(b) {
      var t: Text :| Encode(t) == b;
      DecodeEncode(t);
    }
  }

  /** Draining in two instalments is draining once. */
  lemma {:induction false} DrainAppend(p: seq<Byte>, q: seq<Byte>)
    ensures Drain(p + q) == if Drain(p).Invalid? then Invalid
                             else Prepend(Drain(p).text, Drain(Drain(p).rest + q))
    decreases |p|
  {
    hide DecodeHead;
    if p == [] {
      assert p + q == q;
    } else if DecodeHead(p).Partial? {
      assert Drain(p) == Drained([], p);
    } else {
      HeadExtends(p, q);
      if DecodeHead(p).Char? {
        HeadSize(p);
        var n := DecodeHead(p).size;
        assert (p + q)[n..] == p[n..] + q;
        DrainAppend(p[n..], q);
        if Drain(p).Drained? {
          var d := Drain(Drain(p).rest + q);
          if d.Drained? {
            assert [DecodeHead(p).c] + (Drain(p[n..]).text + d.text) == Drain(p).text + d.text;
          }
        }
      }
    }
  }

  /** The front of well-formed input is never rejected, only left incomplete. */
  lemma PrefixOfWellFormed(p: seq<Byte>, q: seq<Byte>)
    requires WellFormed(p + q)
    ensures Drain(p).Drained?
  {
    DecodesIffWellFormed(p + q);
    DrainAppend(p, q);
  }

  /** Past a well-formed front, what is left is well formed exactly when the whole is; decoding distributes. */
  lemma DecodeConcat(p: seq<Byte>, q: seq<Byte>)
    requires WellFormed(p)
    ensures WellFormed(p + q) <==> WellFormed(q)
    ensures WellFormed(q) ==> Decode(p + q).Some? && Decode(p).Some? && Decode(q).Some?
                              && Decode(p + q).value == Decode(p).value + Decode(q).value
  {
    DecodesIffWellFormed(p);
    DecodesIffWellFormed(q);
    DecodesIffWellFormed(p + q);
    DrainAppend(p, q);
    assert [] + q == q;
  }

  /** The examples of section 7 of RFC 3629, one character of each length. */
  lemma RfcExamples()
    ensures EncodeScalar(0x41) == [0x41] && EncodeScalar(0x391) == [0xCE, 0x91]
    ensures EncodeScalar(0x2262) == [0xE2, 0x89, 0xA2] && EncodeScalar(0x233B4) == [0xF0, 0xA3, 0x8E, 0xB4]
  {}

  // ------------------------------------------------------- the incremental decoder

  /** The object behind codecs.getincrementaldecoder("utf-8"). */
  class IncrementalDecoder {
    var pending: seq<Byte>

    constructor ()
      ensures pending == []
    {
      pending := [];
    }

    /** Takes the next bytes; an invalid sequence is an error and leaves the state alone. */
    method Decode(input: seq<Byte>) returns (text: Option<Text>)
      modifies this
      ensures Drain(old(pending) + input).Invalid? <==> text.None?
      ensures text.Some? ==> Drain(old(pending) + input) == Drained(text.value, pending)
      ensures text.None? ==> pending == old(pending)
    {
      hide DecodeHead;
      var data, out := pending + input, [];
      var bad, stuck := false, false;
      while data != [] && !bad && !stuck
        invariant pending == old(pending)
        invariant bad ==> Drain(pending + input).Invalid?
        invariant stuck ==> data != [] && DecodeHead(data).Partial?
        invariant !bad ==> Drain(pending + input) == Prepend(out, Drain(data))
        decreases |data|, !bad, !stuck
      {
        match DecodeHead(data)
        case Malformed => bad := true;
        case Partial => stuck := true;
        case Char(c, n) =>
          HeadSize(data);
          ghost var rest := Drain(data[n..]);
          if rest.Drained? { assert out + ([c] + rest.text) == (out + [c]) + rest.text; }
          out, data := out + [c], data[n..];
      }
      if bad {
        text := None;
      } else {
        assert out + [] == out;
        text, pending := Some(out), data;
      }
    }
  }
}
