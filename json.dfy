/** Parsed JSON documents, as `json.load` hands them to the Python code, and the
    dictionary and list accesses that code performs on them. */
module JsonValue {
  import opened Wrappers
  import opened PyErrors

  /** A JSON value. Objects are dictionaries (key order is immaterial here);
      non-integral numbers are not part of the model. */
  datatype Json =
    | JNull
    | JBool(b: bool)
    | JInt(i: int)
    | JStr(s: string)
    | JArr(items: seq<Json>)
    | JObj(fields: map<string, Json>)

  /** `data[key]`: a `KeyError` when the object lacks the key, a `TypeError` when
      `data` is not an object at all. */
  function Get(data: Json, key: string): (r: Result<Json, Exception>)
    ensures r.Success? <==> data.JObj? && key in data.fields
    ensures r.Success? ==> r.value == data.fields[key]
    ensures r.Failure? ==> r.error == (if data.JObj? then KeyError else TypeError)
  {
    if !data.JObj? then Failure(TypeError)
    else if key in data.fields then Success(data.fields[key])
    else Failure(KeyError)
  }

  /** `"key" in data` for a dictionary (the structural `case {"key": _}` pattern). */
  predicate HasKey(data: Json, key: string)
  {
    data.JObj? && key in data.fields
  }

  /** A JSON string read where the code expects a `str`. */
  function AsString(j: Json): (r: Result<string, Exception>)
    ensures r.Success? <==> j.JStr?
    ensures r.Success? ==> j == JStr(r.value)
  {
    if j.JStr? then Success(j.s) else Failure(TypeError)
  }

  /** A JSON integer read where the code expects an `int` count. */
  function AsCount(j: Json): (r: Result<nat, Exception>)
    ensures r.Success? <==> j.JInt? && j.i >= 0
    ensures r.Success? ==> j == JInt(r.value)
  {
    if !j.JInt? then Failure(TypeError)
    else if j.i < 0 then Failure(NegativeCount)
    else Success(j.i)
  }

  /** A JSON integer read where the code expects an `int`. */
  function AsInt(j: Json): (r: Result<int, Exception>)
    ensures r.Success? <==> j.JInt?
    ensures r.Success? ==> j == JInt(r.value)
  {
    if j.JInt? then Success(j.i) else Failure(TypeError)
  }

  /** A JSON boolean read where the code expects a `bool`. */
  function AsBool(j: Json): (r: Result<bool, Exception>)
    ensures r.Success? <==> j.JBool?
    ensures r.Success? ==> j == JBool(r.value)
  {
    if j.JBool? then Success(j.b) else Failure(TypeError)
  }

  /** A JSON array read where the code expects a list. */
  function AsList(j: Json): (r: Result<seq<Json>, Exception>)
    ensures r.Success? <==> j.JArr?
    ensures r.Success? ==> j == JArr(r.value)
  {
    if j.JArr? then Success(j.items) else Failure(TypeError)
  }

  /** Values `for` and `enumerate` accept: lists, strings and dictionaries. */
  predicate Iterable(j: Json)
  {
    j.JArr? || j.JStr? || j.JObj?
  }

  /** The items of `for item in j`: an array's elements. An empty string or
      object iterates nothing. A non-empty string or object iterates its
      characters or keys, each a `str`, on which every item decoder of the
      model fails at once with the `TypeError` of `str[key]`. Anything else is
      not iterable (`TypeError`). */
  function Iterate(j: Json): (r: Result<seq<Json>, Exception>)
    ensures r.Success? <==> j.JArr? || j == JStr("") || j == JObj(map[])
    ensures !Iterable(j) ==> r.Failure?
    ensures r.Success? ==> r.value == if j.JArr? then j.items else []
    ensures r.Failure? ==> r.error == TypeError
  {
    match j
    case JArr(items) => Success(items)
    case JStr(s) => if s == "" then Success([]) else Failure(TypeError)
    case JObj(fields) => if fields == map[] then Success([]) else Failure(TypeError)
    case _ => Failure(TypeError)
  }

  /** A list of strings encoded as a JSON array. */
  function Strings(ss: seq<string>): (r: Json)
    ensures r.JArr? && |r.items| == |ss|
    ensures forall i :: 0 <= i < |ss| ==> r.items[i] == JStr(ss[i])
  {
    JArr(seq(|ss|, i requires 0 <= i < |ss| => JStr(ss[i])))
  }

  /** A JSON array of strings read as a list of terms. */
  function AsStrings(j: Json): (r: Result<seq<string>, Exception>)
    ensures r.Success? <==> j.JArr? && forall i :: 0 <= i < |j.items| ==> j.items[i].JStr?
    ensures r.Success? ==> j == Strings(r.value)
  {
    if j.JArr? && forall i :: 0 <= i < |j.items| ==> j.items[i].JStr? then
      var ss := seq(|j.items|, i requires 0 <= i < |j.items| => j.items[i].s);
      assert Strings(ss).items == j.items;
      Success(ss)
    else
      Failure(TypeError)
  }

  /** Reading back an encoded list of strings gives that list. */
  lemma StringsRoundTrip(ss: seq<string>)
    ensures AsStrings(Strings(ss)) == Success(ss)
  {
    var r := AsStrings(Strings(ss));
    assert r.Success?;
    assert |r.value| == |ss|;
    assert forall i :: 0 <= i < |ss| ==> r.value[i] == ss[i] by {
      forall i | 0 <= i < |ss| ensures r.value[i] == ss[i] {
        assert Strings(r.value).items[i] == Strings(ss).items[i];
      }
    }
    assert r.value == ss;
  }

  /** A list comprehension `[decode(item) for item in items]`: the items are
      decoded left to right and the first failure propagates. */
  function DecodeEach<T>(items: seq<Json>, decode: Json -> Result<T, Exception>): (r: Result<seq<T>, Exception>)
    ensures r.Success? ==> |r.value| == |items|
  {
    if items == [] then Success([])
    else
      var init :- DecodeEach(items[..|items| - 1], decode);
      var last :- decode(items[|items| - 1]);
      Success(init + [last])
  }

  /** When every item decodes, the list decodes to the items' values. */
  lemma {:induction false} DecodeEachAll<T>(items: seq<Json>, decode: Json -> Result<T, Exception>, rs: seq<T>)
    requires |items| == |rs|
    requires forall i :: 0 <= i < |items| ==> decode(items[i]) == Success(rs[i])
    ensures DecodeEach(items, decode) == Success(rs)
  {
    if items != [] {
      var n := |items|;
      DecodeEachAll(items[..n - 1], decode, rs[..n - 1]);
      assert rs == rs[..n - 1] + [rs[n - 1]];
    }
  }

  /** Python truthiness of a JSON value (`if value:`). */
  predicate Truthy(j: Json)
  {
    match j
    case JNull => false
    case JBool(b) => b
    case JInt(i) => i != 0
    case JStr(s) => s != ""
    case JArr(items) => items != []
    case JObj(fields) => fields != map[]
  }
}
