/**
 Unpadded URL-safe base64 (section 5 of RFC 4648) as cursors use it, with Python's two
 decoders: the validating one, which still ignores the unused bits of the last character,
 and the lenient one, which also skips what is not in the alphabet. Both read the
 characters of the standard and of the URL-safe alphabet.
 */
module Base64Url {
  import opened Wrappers
  import opened Utf8

  type Sextet = v: int | 0 <= v < 64

  function CharOf(v: Sextet): (ch: char)
    ensures ch != '=' && ch as int < 128
  {
    if v < 26 then 'A' + v as char
    else if v < 52 then 'a' + (v - 26) as char
    else if v < 62 then '0' + (v - 52) as char
    else if v == 62 then '-' else '_'
  }

  function ValueOf(ch: char): Option<Sextet> {
    if 'A' <= ch <= 'Z' then Some(ch as int - 'A' as int)
    else if 'a' <= ch <= 'z' then Some(ch as int - 'a' as int + 26)
    else if '0' <= ch <= '9' then Some(ch as int - '0' as int + 52)
    else if ch == '-' || ch == '+' then Some(62)
    else if ch == '_' || ch == '/' then Some(63)
    else None
  }

  lemma ValueOfChar(v: Sextet)
    ensures ValueOf(CharOf(v)) == Some(v)
  {}

  ghost predicate PlainAscii(s: string) { forall ch | ch in s :: ch != '=' && ch as int < 128 }

  /** The characters of one byte, of two, and of three. */
  function Group1(a: Byte): (r: string)
    ensures |r| == 2 && PlainAscii(r)
  {
    [CharOf(a / 4), CharOf(a % 4 * 16)]
  }

  function Group2(a: Byte, b: Byte): (r: string)
    ensures |r| == 3 && PlainAscii(r)
  {
    [CharOf(a / 4), CharOf(a % 4 * 16 + b / 16), CharOf(b % 16 * 4)]
  }

  function Group(a: Byte, b: Byte, c: Byte): (r: string)
    ensures |r| == 4 && PlainAscii(r)
  {
    [CharOf(a / 4), CharOf(a % 4 * 16 + b / 16), CharOf(b % 16 * 4 + c / 64), CharOf(c % 64)]
  }

  /** urlsafe_b64encode without its padding. */
  function Encode(bs: seq<Byte>): string {
    if |bs| == 0 then []
    else if |bs| == 1 then Group1(bs[0])
    else if |bs| == 2 then Group2(bs[0], bs[1])
    else Group(bs[0], bs[1], bs[2]) + Encode(bs[3..])
  }

  function Padding(length: nat): string {
    if length % 4 == 0 then "" else if length % 4 == 1 then "===" else if length % 4 == 2 then "==" else "="
  }

  function Byte0(p: Sextet, q: Sextet): Byte { p * 4 + q / 16 }
  function Byte1(q: Sextet, r: Sextet): Byte { q % 16 * 16 + r / 4 }
  function Byte2(r: Sextet, s: Sextet): Byte { r % 4 * 64 + s }

  /** b64decode with validate=True. */
  function StrictDecode(s: string): Option<seq<Byte>> {
    if s == "" then Some([])
    else if |s| < 4 || ValueOf(s[0]).None? || ValueOf(s[1]).None? then None
    else
      var p, q := ValueOf(s[0]).value, ValueOf(s[1]).value;
      if s[2..] == "==" then Some([Byte0(p, q)])
      else if ValueOf(s[2]).None? then None
      else
        var r := ValueOf(s[2]).value;
        if s[3..] == "=" then Some([Byte0(p, q), Byte1(q, r)])
        else if ValueOf(s[3]).None? then None
        else
          match StrictDecode(s[4..])
          case None => None
          case Some(rest) => Some([Byte0(p, q), Byte1(q, r), Byte2(r, ValueOf(s[3]).value)] + rest)
  }

  /** b64decode without validation: `quad` holds the sextets read since the last full group, `pads` the signs of padding. */
  function LenientDecode(s: string, quad: seq<Sextet>, pads: nat): Option<seq<Byte>>
    requires |quad| < 4
  {
    if s == "" then (if quad == [] then Some([]) else None)
    else if s[0] == '=' then
      if |quad| < 2 then LenientDecode(s[1..], quad, pads)
      else if |quad| + pads + 1 < 4 then LenientDecode(s[1..], quad, pads + 1)
      else if |quad| == 2 then Some([Byte0(quad[0], quad[1])])
      else Some([Byte0(quad[0], quad[1]), Byte1(quad[1], quad[2])])
    else match ValueOf(s[0])
      case None => LenientDecode(s[1..], quad, pads)
      case Some(v) =>
        if |quad| < 3 then LenientDecode(s[1..], quad + [v], 0)
        else match LenientDecode(s[1..], [], 0)
          case None => None
          case Some(rest) => Some([Byte0(quad[0], quad[1]), Byte1(quad[1], quad[2]), Byte2(quad[2], v)] + rest)
  }

  /** A cursor's bytes: unpadded, decodable, and spelled the way the encoder spells them. */
  function DecodeCanonical(cursor: string): Option<seq<Byte>> {
    if '=' in cursor then None
    else
      var raw := StrictDecode(cursor + Padding(|cursor|));
      if raw.None? || Encode(raw.value) != cursor then None else raw
  }

  // ------------------------------------------------------------------- the groups

  lemma GroupBytes(a: Byte, b: Byte, c: Byte)
    ensures Byte0(a / 4, a % 4 * 16 + b / 16) == a
    ensures Byte1(a % 4 * 16 + b / 16, b % 16 * 4 + c / 64) == b
    ensures Byte2(b % 16 * 4 + c / 64, c % 64) == c
    ensures Byte0(a / 4, a % 4 * 16) == a
    ensures Byte1(a % 4 * 16 + b / 16, b % 16 * 4) == b
  {}

  lemma StrictGroup(a: Byte, b: Byte, c: Byte, tail: string)
    ensures StrictDecode(Group(a, b, c) + tail) ==
            match StrictDecode(tail) { case None => None case Some(rest) => Some([a, b, c] + rest) }
  {
    hide CharOf, ValueOf, Byte0, Byte1, Byte2;
    ValueOfChar(a / 4);
    ValueOfChar(a % 4 * 16 + b / 16);
    ValueOfChar(b % 16 * 4 + c / 64);
    ValueOfChar(c % 64);
    GroupBytes(a, b, c);
    var s := Group(a, b, c) + tail;
    assert s[4..] == tail;
    assert s[2..][0] == s[2] != '=';
    assert s[3..][0] == s[3] != '=';
  }

  /** The lenient decoder takes one more character into an unfinished group. */
  lemma LenientReads(v: Sextet, s: string, quad: seq<Sextet>)
    requires |quad| < 3
    ensures LenientDecode([CharOf(v)] + s, quad, 0) == LenientDecode(s, quad + [v], 0)
  {
    hide CharOf, ValueOf;
    ValueOfChar(v);
    assert ([CharOf(v)] + s)[1..] == s;
  }

  lemma LenientCloses(v: Sextet, s: string, quad: seq<Sextet>)
    requires |quad| == 3
    ensures LenientDecode([CharOf(v)] + s, quad, 0) ==
            match LenientDecode(s, [], 0) {
              case None => None
              case Some(rest) => Some([Byte0(quad[0], quad[1]), Byte1(quad[1], quad[2]), Byte2(quad[2], v)] + rest) }
  {
    hide CharOf, ValueOf, Byte0, Byte1, Byte2;
    ValueOfChar(v);
    assert ([CharOf(v)] + s)[1..] == s;
  }

  lemma LenientGroup(a: Byte, b: Byte, c: Byte, tail: string)
    ensures LenientDecode(Group(a, b, c) + tail, [], 0) ==
            match LenientDecode(tail, [], 0) { case None => None case Some(rest) => Some([a, b, c] + rest) }
  {
    hide CharOf, Byte0, Byte1, Byte2, LenientDecode;
    var p, q, r, t: Sextet := a / 4, a % 4 * 16 + b / 16, b % 16 * 4 + c / 64, c % 64;
    GroupBytes(a, b, c);
    var s1 := [CharOf(t)] + tail;
    var s2 := [CharOf(r)] + s1;
    var s3 := [CharOf(q)] + s2;
    assert Group(a, b, c) + tail == [CharOf(p)] + s3;
    assert [] + [p] == [p] && [p] + [q] == [p, q] && [p, q] + [r] == [p, q, r];
    LenientReads(p, s3, []);
    LenientReads(q, s2, [p]);
    LenientReads(r, s1, [p, q]);
    LenientCloses(t, tail, [p, q, r]);
  }

  lemma {:induction false} EncodedLength(bs: seq<Byte>)
    ensures PlainAscii(Encode(bs))
    ensures |Encode(bs)| % 4 == if |bs| % 3 == 0 then 0 else |bs| % 3 + 1
  {
    hide Group, Group1, Group2;
    if |bs| >= 3 { EncodedLength(bs[3..]); }
  }

  function PadOf(bs: seq<Byte>): string { Padding(|Encode(bs)|) }

  lemma PadOfTail(bs: seq<Byte>)
    ensures PadOf(bs) == if |bs| % 3 == 0 then "" else if |bs| % 3 == 1 then "==" else "="
    ensures |bs| >= 3 ==> PadOf(bs[3..]) == PadOf(bs)
  {
    hide Encode;
    EncodedLength(bs);
    if |bs| >= 3 { EncodedLength(bs[3..]); }
  }

  /** Both decoders undo the encoder, padding added. */
  lemma {:induction false} DecodersInvert(bs: seq<Byte>)
    ensures StrictDecode(Encode(bs) + PadOf(bs)) == Some(bs)
    ensures LenientDecode(Encode(bs) + PadOf(bs), [], 0) == Some(bs)
  {
    hide PadOf, StrictDecode, LenientDecode, Group, Group1, Group2;
    PadOfTail(bs);
    if |bs| >= 3 {
      var tail := Encode(bs[3..]) + PadOf(bs);
      assert Encode(bs) + PadOf(bs) == Group(bs[0], bs[1], bs[2]) + tail;
      DecodersInvert(bs[3..]);
      StrictGroup(bs[0], bs[1], bs[2], tail);
      LenientGroup(bs[0], bs[1], bs[2], tail);
      assert [bs[0], bs[1], bs[2]] + bs[3..] == bs;
    } else if |bs| == 2 {
      TwoBytes(bs[0], bs[1]);
      assert bs == [bs[0], bs[1]];
    } else if |bs| == 1 {
      OneByte(bs[0]);
      assert bs == [bs[0]];
    } else {
      NoBytes();
      assert "" + PadOf(bs) == "";
    }
  }

  lemma NoBytes()
    ensures StrictDecode("") == Some([]) && LenientDecode("", [], 0) == Some([])
  {}

  lemma OneByte(a: Byte)
    ensures var s := Group1(a) + "==";
            StrictDecode(s) == Some([a]) && LenientDecode(s, [], 0) == Some([a])
  {
    hide CharOf, ValueOf, Byte0, Byte1, Byte2;
    var p, q: Sextet := a / 4, a % 4 * 16;
    ValueOfChar(p);
    ValueOfChar(q);
    GroupBytes(a, 0, 0);
    var s := [CharOf(p), CharOf(q)] + "==";
    assert s[2..] == "==" && "=="[1..] == "=";
    assert s == [CharOf(p)] + ([CharOf(q)] + "==");
    assert [] + [p] == [p] && [p] + [q] == [p, q];
    LenientReads(p, [CharOf(q)] + "==", []);
    LenientReads(q, "==", [p]);
    assert LenientDecode("=", [p, q], 1) == Some([a]);
  }

  lemma TwoBytes(a: Byte, b: Byte)
    ensures var s := Group2(a, b) + "=";
            StrictDecode(s) == Some([a, b]) && LenientDecode(s, [], 0) == Some([a, b])
  {
    hide CharOf, ValueOf, Byte0, Byte1, Byte2;
    var p, q, r: Sextet := a / 4, a % 4 * 16 + b / 16, b % 16 * 4;
    ValueOfChar(p);
    ValueOfChar(q);
    ValueOfChar(r);
    GroupBytes(a, b, 0);
    var s := [CharOf(p), CharOf(q), CharOf(r)] + "=";
    assert s[2..][0] == s[2] != '=' && s[3..] == "=";
    assert s == [CharOf(p)] + ([CharOf(q)] + ([CharOf(r)] + "="));
    assert [] + [p] == [p] && [p] + [q] == [p, q] && [p, q] + [r] == [p, q, r];
    LenientReads(p, [CharOf(q)] + ([CharOf(r)] + "="), []);
    LenientReads(q, [CharOf(r)] + "=", [p]);
    LenientReads(r, "=", [p, q]);
  }

  // --------------------------------------------------------------- main results

  /** A cursor is accepted exactly when it encodes some bytes, and then those are its bytes. */
  lemma CanonicalIffEncoding(cursor: string)
    ensures DecodeCanonical(cursor).Some? <==> exists bs: seq<Byte> :: Encode(bs) == cursor
    ensures forall bs: seq<Byte> | Encode(bs) == cursor :: DecodeCanonical(cursor) == Some(bs)
  {
    forall bs: seq<Byte> | Encode(bs) == cursor ensures DecodeCanonical(cursor) == Some(bs) {
      EncodedLength(bs);
      DecodersInvert(bs);
    }
    if DecodeCanonical(cursor).Some? {
      assert Encode(DecodeCanonical(cursor).value) == cursor;
    }
  }

  /** Distinct accepted cursors stand for distinct bytes. */
  lemma CanonicalInjective(c: string, d: string)
    requires DecodeCanonical(c).Some? && DecodeCanonical(c) == DecodeCanonical(d)
    ensures c == d
  {}

  /** Why the spelling is checked: without it these pairs would decode alike. */
  lemma SpellingsThatDecodeAlike()
    ensures StrictDecode("QQ==") == StrictDecode("QR==") == Some([65]) && DecodeCanonical("QR").None?
    ensures StrictDecode("-g==") == StrictDecode("+g==") == Some([250]) && DecodeCanonical("+g").None?
  {
    assert "QQ=="[2..] == "QR=="[2..] == "-g=="[2..] == "+g=="[2..] == "==";
    assert "QR" + Padding(2) == "QR==" && "+g" + Padding(2) == "+g==";
    assert Encode([65]) == "QQ" && Encode([250]) == "-g";
    assert "QR"[1] != "QQ"[1] && "+g"[0] != "-g"[0];
  }

  /** Test vectors of section 10 of RFC 4648, without padding, and one that needs the URL-safe characters. */
  lemma RfcVectors()
    ensures Encode([]) == "" && Encode([0x66]) == "Zg" && Encode([0x66, 0x6F]) == "Zm8" && Encode([0x66, 0x6F, 0x6F]) == "Zm9v"
    ensures Encode([0x66, 0x6F, 0x6F, 0x62, 0x61, 0x72]) == "Zm9vYmFy"
    ensures Encode([0xFB, 0xFF]) == "-_8"
  {
    assert [0x66, 0x6F, 0x6F, 0x62, 0x61, 0x72][3..] == [0x62, 0x61, 0x72] && [0x62, 0x61, 0x72][3..] == [] && [0x66, 0x6F, 0x6F][3..] == [];
  }
}
