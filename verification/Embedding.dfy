/** What the embedding endpoint answers, and the vector that is accepted from it. */
module Embedding {
  import opened Wrappers

  /** A parsed JSON value; Python's parser also reads NaN and the infinities. */
  datatype Json =
    | Null
    | Bool(truth: bool)
    | Int(whole: int)
    | Float(number: real)
    | NonFinite
    | Str(text: string)
    | Arr(items: seq<Json>)
    | Obj(fields: map<string, Json>)

  /** Invalid is a ValueError; Overflow is Python's OverflowError, which the callers do not catch. */
  datatype Error = Invalid | Overflow

  type Vector = seq<real>

  datatype Answer = Answer(values: Vector, model: Option<string>)

  const MAX_VECTOR_DIMENSIONS: nat := 2000

  function PowerOfTwo(k: nat): nat { if k == 0 then 1 else 2 * PowerOfTwo(k - 1) }

  /** An integer that rounds to a double. */
  predicate FitsDouble(n: int) {
    var bound := PowerOfTwo(1024) - PowerOfTwo(970);
    0 - bound < n < bound
  }

  function Field(j: Json, name: string): Json {
    if j.Obj? && name in j.fields then j.fields[name] else Null
  }

  /** White space as str.strip takes it. */
  predicate IsSpace(ch: char) {
    var c := ch as int;
    || 9 <= c <= 13 || 28 <= c <= 32 || c == 0x85 || c == 0xA0 || c == 0x1680 || 0x2000 <= c <= 0x200A
    || c == 0x2028 || c == 0x2029 || c == 0x202F || c == 0x205F || c == 0x3000
  }

  predicate Blank(s: string) { forall ch | ch in s :: IsSpace(ch) }

  /** The values read from left to right: the first that is no finite number stops the reading. */
  function ReadNumbers(values: seq<Json>): Result<Vector, Error> {
    if values == [] then Ok([])
    else match values[0]
      case Int(n) => if FitsDouble(n) then PrependNumber(n as real, ReadNumbers(values[1..])) else Err(Overflow)
      case Float(x) => PrependNumber(x, ReadNumbers(values[1..]))
      case _ => Err(Invalid)
  }

  function PrependNumber(x: real, rest: Result<Vector, Error>): Result<Vector, Error> {
    match rest
    case Ok(v) => Ok([x] + v)
    case Err(e) => Err(e)
  }

  predicate IsZero(v: Vector) { forall i | 0 <= i < |v| :: v[i] == 0.0 }

  /** embedding_values. */
  function EmbeddingValues(response: Json, expected: Option<nat>): (r: Result<Answer, Error>)
    ensures r.Ok? ==> 1 <= |r.value.values| <= MAX_VECTOR_DIMENSIONS && !IsZero(r.value.values)
    ensures r.Ok? && expected.Some? ==> |r.value.values| == expected.value
  {
    var data := Field(response, "data");
    if !data.Arr? || |data.items| != 1 then Err(Invalid)
    else
      var model := Field(response, "model");
      if !model.Null? && (!model.Str? || Blank(model.text)) then Err(Invalid)
      else
        var row := Field(data.items[0], "embedding");
        if !row.Arr? then Err(Invalid)
        else if !(1 <= |row.items| <= MAX_VECTOR_DIMENSIONS) || (expected.Some? && expected.value != |row.items|) then Err(Invalid)
        else
          ReadLength(row.items);
          match ReadNumbers(row.items)
          case Err(e) => Err(e)
          case Ok(values) =>
            if IsZero(values) then Err(Invalid)
            else Ok(Answer(values, if model.Null? then None else Some(model.text)))
  }

  lemma {:induction false} ReadLength(values: seq<Json>)
    ensures ReadNumbers(values).Ok? ==> |ReadNumbers(values).value| == |values|
  {
    if values != [] { ReadLength(values[1..]); }
  }

  function Numbers(v: Vector): seq<Json> { seq(|v|, i requires 0 <= i < |v| => Float(v[i])) }

  /** A well-formed answer: one row, the vector, and the model's name when it gives one. */
  function AnswerJson(a: Answer): Json {
    var row := Obj(map["embedding" := Arr(Numbers(a.values))]);
    Obj(if a.model.None? then map["data" := Arr([row])] else map["data" := Arr([row]), "model" := Str(a.model.value)])
  }

  lemma {:induction false} FloatsRead(v: Vector)
    ensures ReadNumbers(Numbers(v)) == Ok(v)
  {
    if v != [] {
      FloatsRead(v[1..]);
      assert Numbers(v)[1..] == Numbers(v[1..]);
      assert [v[0]] + v[1..] == v;
    }
  }

  /** A well-formed answer is accepted exactly when its vector and its name are in order, and read as it was meant. */
  lemma WellFormedAnswers(a: Answer, expected: Option<nat>)
    ensures EmbeddingValues(AnswerJson(a), expected) ==
            if 1 <= |a.values| <= MAX_VECTOR_DIMENSIONS && (expected.Some? ==> expected.value == |a.values|)
               && !IsZero(a.values) && (a.model.Some? ==> !Blank(a.model.value))
            then Ok(a) else Err(Invalid)
  {
    hide IsZero, Blank, ReadNumbers;
    FloatsRead(a.values);
    var numbers := Numbers(a.values);
    var row := Obj(map["embedding" := Arr(numbers)]);
    assert Field(AnswerJson(a), "data") == Arr([row]) && Field(row, "embedding") == Arr(numbers);
    assert Field(AnswerJson(a), "model") == if a.model.None? then Null else Str(a.model.value);
  }

  predicate Finite(j: Json) { j.Float? || (j.Int? && FitsDouble(j.whole)) }

  predicate NotANumber(j: Json) { !j.Float? && !j.Int? }

  /** Values are read exactly when all are finite; the error is an overflow exactly when an integer too large comes before anything that is no number. */
  lemma {:induction false} NumbersReadIff(values: seq<Json>)
    ensures ReadNumbers(values).Ok? <==> forall i | 0 <= i < |values| :: Finite(values[i])
    ensures ReadNumbers(values) == Err(Overflow) <==>
            exists k :: 0 <= k < |values| && !Finite(values[k]) && !NotANumber(values[k]) && forall i | 0 <= i < k :: Finite(values[i])
  {
    if values != [] {
      var rest := values[1..];
      NumbersReadIff(rest);
      assert forall i | 1 <= i < |values| :: values[i] == rest[i - 1];
      if ReadNumbers(values) == Err(Overflow) {
        if !Finite(values[0]) {
          assert !NotANumber(values[0]);
        } else {
          var k :| 0 <= k < |rest| && !Finite(rest[k]) && !NotANumber(rest[k]) && forall i | 0 <= i < k :: Finite(rest[i]);
          assert values[k + 1] == rest[k];
          assert forall i | 0 <= i < k + 1 :: Finite(values[i]) by {
            forall i | 0 <= i < k + 1 ensures Finite(values[i]) { if i > 0 { assert values[i] == rest[i - 1]; } }
          }
        }
      }
      if k :| 0 <= k < |values| && !Finite(values[k]) && !NotANumber(values[k]) && forall i | 0 <= i < k :: Finite(values[i]) {
        if k > 0 {
          assert Finite(values[0]);
          assert forall i | 0 <= i < k - 1 :: Finite(rest[i]) by {
            forall i | 0 <= i < k - 1 ensures Finite(rest[i]) { assert rest[i] == values[i + 1]; }
          }
          assert rest[k - 1] == values[k];
        }
      }
    }
  }

  /** Values are read one by one, in their places. */
  lemma {:induction false} ValuesRead(values: seq<Json>)
    ensures ReadNumbers(values).Ok? ==>
              && |ReadNumbers(values).value| == |values|
              && forall i | 0 <= i < |values| ::
                   Finite(values[i]) && ReadNumbers(values).value[i] == if values[i].Int? then values[i].whole as real else values[i].number
  {
    if values != [] {
      ValuesRead(values[1..]);
      assert forall i | 1 <= i < |values| :: values[i] == values[1..][i - 1];
    }
  }

  /**
   Exactly what is accepted, whatever the answer's shape: an object with one row, an embedding of
   finite numbers, 1 to 2000 and as many as expected, not all zero, and no model or a proper name.
   */
  lemma AcceptedExactly(response: Json, expected: Option<nat>, a: Answer)
    ensures EmbeddingValues(response, expected) == Ok(a) <==>
            && response.Obj? && "data" in response.fields && response.fields["data"].Arr? && |response.fields["data"].items| == 1
            && var row := response.fields["data"].items[0];
            && row.Obj? && "embedding" in row.fields && row.fields["embedding"].Arr?
            && ReadNumbers(row.fields["embedding"].items) == Ok(a.values) && !IsZero(a.values)
            && 1 <= |row.fields["embedding"].items| <= 2000 && (expected.Some? ==> expected.value == |row.fields["embedding"].items|)
            && match a.model
               case None => "model" !in response.fields || response.fields["model"].Null?
               case Some(name) => "model" in response.fields && response.fields["model"] == Str(name) && !Blank(name)
  {
    hide IsZero, Blank, ReadNumbers;
  }
}
