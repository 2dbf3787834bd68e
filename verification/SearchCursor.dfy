/**
 Cursors of the search: the scope of the request and an offset, in unpadded URL-safe base64.
 The decoder is the lenient one; the cursor is compared with the one the program would issue.
 */
module SearchCursor {
  import opened Wrappers
  import opened Utf8
  import opened Decimal
  import Base64Url

  const MAX_RANKED_CANDIDATES: nat := 1000
  const COLON: Scalar := 58

  datatype Error = InvalidCursor

  /** The first 16 hexadecimal digits of a digest of the request. */
  predicate IsScope(scope: Text) { COLON !in scope }

  function EncodeCursor(scope: Text, offset: nat): string {
    Base64Url.Encode(Encode(scope + [COLON] + NumeralText(offset)))
  }

  function NumeralText(n: nat): Text { Numeral(n) }

  /** The place of the first colon, or the end. */
  function ColonAt(t: Text): (k: nat)
    ensures k <= |t| && COLON !in t[..k] && (k < |t| ==> t[k] == COLON)
  {
    if t == [] || t[0] == COLON then 0
    else
      var k := 1 + ColonAt(t[1..]);
      assert t[..k] == [t[0]] + t[1..][..k - 1];
      k
  }

  predicate IsAscii(s: string) { forall ch | ch in s :: ch as int < 128 }

  /** _offset. */
  function Offset(scope: Text, cursor: Option<string>): Result<nat, Error> {
    if cursor.None? then Ok(0)
    else if !IsAscii(cursor.value) then Err(InvalidCursor)
    else
      var raw := Base64Url.LenientDecode(cursor.value + Base64Url.Padding(|cursor.value|), [], 0);
      if raw.None? || Decode(raw.value).None? then Err(InvalidCursor)
      else
        var text := Decode(raw.value).value;
        var colon := ColonAt(text);
        if colon == |text| then Err(InvalidCursor)
        else
          var offset := ParseInt(text[colon + 1..]);
          if offset.None? || text[..colon] != scope || offset.value < 0 || offset.value > MAX_RANKED_CANDIDATES
             || EncodeCursor(scope, offset.value) != cursor.value
          then Err(InvalidCursor) else Ok(offset.value)
  }

  lemma CursorIsAscii(scope: Text, offset: nat)
    ensures IsAscii(EncodeCursor(scope, offset))
  {
    Base64Url.EncodedLength(Encode(scope + [COLON] + NumeralText(offset)));
  }

  lemma CursorDecodes(scope: Text, offset: nat)
    ensures var c := EncodeCursor(scope, offset); var bytes := Encode(scope + [COLON] + NumeralText(offset));
            && Base64Url.LenientDecode(c + Base64Url.Padding(|c|), [], 0) == Some(bytes)
            && Decode(bytes) == Some(scope + [COLON] + NumeralText(offset))
  {
    hide Base64Url.LenientDecode, Encode, Decode, Base64Url.Encode, Base64Url.StrictDecode, Base64Url.Padding;
    var bytes := Encode(scope + [COLON] + NumeralText(offset));
    DecodeEncode(scope + [COLON] + NumeralText(offset));
    Base64Url.DecodersInvert(bytes);
  }

  lemma SplitAtColon(scope: Text, rest: Text)
    requires IsScope(scope)
    ensures var t := scope + [COLON] + rest; var k := ColonAt(t);
            k == |scope| && t[..k] == scope && t[k + 1..] == rest
  {
    hide ColonAt;
    var t := scope + [COLON] + rest;
    assert t[|scope|] == COLON && forall i | 0 <= i < |scope| :: t[i] == scope[i];
    var k := ColonAt(t);
    assert forall i | 0 <= i < k :: t[i] == t[..k][i];
  }

  /** A request accepts exactly the cursors the program issues for it: its own scope, offsets 0 to 1000, and no other spelling. */
  lemma AcceptedIffIssued(scope: Text, cursor: string, offset: nat)
    requires IsScope(scope)
    ensures Offset(scope, Some(cursor)) == Ok(offset) <==> offset <= MAX_RANKED_CANDIDATES && cursor == EncodeCursor(scope, offset)
  {
    hide Base64Url.LenientDecode, Decode, EncodeCursor, IsAscii, ColonAt, ParseInt;
    if cursor == EncodeCursor(scope, offset) {
      CursorIsAscii(scope, offset);
      CursorDecodes(scope, offset);
      SplitAtColon(scope, NumeralText(offset));
      ParseNumeral(offset);
    }
  }

  /** Cursors of different requests or different offsets differ. */
  lemma CursorsDiffer(scope1: Text, offset1: nat, scope2: Text, offset2: nat)
    requires IsScope(scope1) && IsScope(scope2)
    requires EncodeCursor(scope1, offset1) == EncodeCursor(scope2, offset2)
    ensures scope1 == scope2 && offset1 == offset2
  {
    hide Base64Url.LenientDecode, Decode, EncodeCursor, ColonAt, Encode;
    CursorDecodes(scope1, offset1);
    CursorDecodes(scope2, offset2);
    SplitAtColon(scope1, NumeralText(offset1));
    SplitAtColon(scope2, NumeralText(offset2));
    NumeralInjective(offset1, offset2);
  }

  /** A cursor spelled out: scope "a", a colon, offset 7. */
  lemma CursorSpelled()
    ensures EncodeCursor([97], 7) == "YTo3"
  {
    var text: Text := [97, 58, 55];
    assert [97] + [COLON] + NumeralText(7) == text;
    assert text[1..] == [58, 55] && text[1..][1..] == [55] && text[1..][1..][1..] == [];
    assert Encode(text[1..][1..]) == [55];
    assert Encode(text[1..]) == [58] + [55];
    assert Encode(text) == [97] + ([58] + [55]);
    assert [97] + ([58] + [55]) == [97, 58, 55];
    assert [97, 58, 55][3..] == [];
  }
}
