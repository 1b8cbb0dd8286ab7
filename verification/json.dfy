/**
 * The slice of Foundation's `JSONDecoder` that the geometry initialisers use: a keyed
 * container, `decode(String.self, forKey:)` and `decode([[Double]].self, forKey:)`.
 * JSON numbers are modelled as exact reals.
 */
module JsonDecoding {
  import opened Wrappers
  import Sequences

  datatype Json =
    | JNull
    | JBool(b: bool)
    | JNumber(n: real)
    | JString(s: string)
    | JArray(items: seq<Json>)
    | JObject(fields: map<string, Json>)

  /** Swift's `DecodingError` cases that these decodes can throw, tagged with the key being read. */
  datatype DecodeError = KeyNotFound(key: string) | ValueNotFound(key: string) | TypeMismatch(key: string)

  /** `decoder.container(keyedBy:)`: only a JSON object has keys. */
  function Container(j: Json): (r: Result<map<string, Json>, DecodeError>)
    ensures r.Success? <==> j.JObject?
    ensures r.Success? ==> r.value == j.fields
  {
    match j
    case JObject(fields) => Success(fields)
    case JNull => Failure(ValueNotFound(""))
    case _ => Failure(TypeMismatch(""))
  }

  /** The error thrown when a value of the wrong JSON kind is found under `key`. */
  function Mismatch(j: Json, key: string): DecodeError {
    if j.JNull? then ValueNotFound(key) else TypeMismatch(key)
  }

  /** `container.decode(String.self, forKey: key)`. */
  function DecodeString(fields: map<string, Json>, key: string): (r: Result<string, DecodeError>)
    ensures r.Success? <==> key in fields && fields[key].JString?
    ensures r.Success? ==> fields[key] == JString(r.value)
    ensures key !in fields ==> r == Failure(KeyNotFound(key))
  {
    if key !in fields then Failure(KeyNotFound(key))
    else if fields[key].JString? then Success(fields[key].s)
    else Failure(Mismatch(fields[key], key))
  }

  /** Decoding `[Double]` from the items of a JSON array; the first bad item decides the error. */
  function DecodeDoubles(items: seq<Json>, key: string): (r: Result<seq<real>, DecodeError>)
    ensures r.Success? <==> forall i :: 0 <= i < |items| ==> items[i].JNumber?
    ensures r.Success? ==> |r.value| == |items| && forall i :: 0 <= i < |items| ==> items[i] == JNumber(r.value[i])
  {
    if items == [] then Success([])
    else if !items[0].JNumber? then Failure(Mismatch(items[0], key))
    else
      var rest :- DecodeDoubles(items[1..], key);
      Success([items[0].n] + rest)
  }

  /** Decoding `[[Double]]` from the items of a JSON array, row by row. */
  function DecodeRows(items: seq<Json>, key: string): (r: Result<seq<seq<real>>, DecodeError>)
    ensures r.Success? ==> |r.value| == |items|
    ensures r.Success? ==> forall i :: 0 <= i < |items| ==>
      items[i].JArray? && DecodeDoubles(items[i].items, key) == Success(r.value[i])
  {
    if items == [] then Success([])
    else if !items[0].JArray? then Failure(Mismatch(items[0], key))
    else
      var row :- DecodeDoubles(items[0].items, key);
      var rest :- DecodeRows(items[1..], key);
      Success([row] + rest)
  }

  /** `container.decode([[Double]].self, forKey: key)`. */
  function DecodeDoubleRows(fields: map<string, Json>, key: string): (r: Result<seq<seq<real>>, DecodeError>)
    ensures key !in fields ==> r == Failure(KeyNotFound(key))
    ensures r.Success? ==> key in fields && fields[key].JArray? && |r.value| == |fields[key].items|
    ensures r.Success? ==> forall i :: 0 <= i < |r.value| ==>
      fields[key].items[i].JArray? && DecodeDoubles(fields[key].items[i].items, key) == Success(r.value[i])
  {
    if key !in fields then Failure(KeyNotFound(key))
    else if fields[key].JArray? then DecodeRows(fields[key].items, key)
    else Failure(Mismatch(fields[key], key))
  }

  /** The JSON text of a `[Double]`. */
  function NumbersJson(xs: seq<real>): Json {
    JArray(Sequences.Map(xs, (x: real) => JNumber(x)))
  }

  /** The JSON text of a `[[Double]]`. */
  function RowsJson(rows: seq<seq<real>>): Json {
    JArray(Sequences.Map(rows, NumbersJson))
  }

  /** Decoding the JSON of a `[Double]` gives the numbers back. */
  lemma NumbersRoundTrip(xs: seq<real>, key: string)
    ensures DecodeDoubles(NumbersJson(xs).items, key) == Success(xs)
  {
    var r := DecodeDoubles(NumbersJson(xs).items, key);
    assert r.Success?;
    assert r.value == xs;
  }

  /** Decoding the JSON of a `[[Double]]` gives the rows back, whatever their lengths. */
  lemma {:induction false} RowsRoundTrip(rows: seq<seq<real>>, key: string)
    ensures DecodeRows(RowsJson(rows).items, key) == Success(rows)
  {
    var items := RowsJson(rows).items;
    if rows != [] {
      NumbersRoundTrip(rows[0], key);
      assert items[1..] == RowsJson(rows[1..]).items;
      RowsRoundTrip(rows[1..], key);
      assert [rows[0]] + rows[1..] == rows;
    }
  }
}
