/**
 * The JSON tree the application queries (nlohmann::json), with the few
 * operations it uses: `contains`, the const `operator[]` on a string key,
 * range-for iteration, `empty()`, `get<int>`, `get<double>`,
 * `get<std::string>` and `push_back`. Text syntax (json::parse, dump) is
 * not modelled; a parser is a parameter of type `string -> ParseResult`.
 */
module JsonTree {
  import opened Text

  /** An object's members are listed in iteration order (nlohmann keeps them sorted by key). */
  datatype Json =
    | JNull
    | JBool(b: bool)
    | JNumber(n: real)
    | JString(s: string)
    | JArray(items: seq<Json>)
    | JObject(members: seq<(string, Json)>)

  /** The exceptions the library throws on the paths the application takes. */
  datatype JsonError =
    | TypeMismatch(expected: string, actual: string)   // type_error.302 from get<T>()
    | NotAnObject(actual: string)                      // type_error.305 from const operator[]
    | MissingKey(key: string)                          // const operator[] on an absent key

  datatype Result<+T> = Ok(value: T) | Err(error: JsonError) {
    predicate IsFailure() { Err? }
    function PropagateFailure<U>(): Result<U>
      requires Err?
    {
      Err(error)
    }
    function Extract(): T
      requires Ok?
    {
      value
    }
  }

  /** What a decode loop leaves when each element is decoded in turn: the items pushed before it stopped, and the error that stopped it. */
  datatype Decoded<T> = Decoded(items: seq<T>, failure: Option<JsonError>)

  /** Decode elements in order; the first that throws ends the loop, keeping exactly the items before it. */
  function DecodeEach<T>(xs: seq<Json>, decode: Json -> Result<T>): (r: Decoded<T>)
    ensures |r.items| <= |xs|
    ensures forall i :: 0 <= i < |r.items| ==> decode(xs[i]) == Ok(r.items[i])
    ensures r.failure.None? ==> |r.items| == |xs|
    ensures r.failure.Some? ==> |r.items| < |xs| && decode(xs[|r.items|]) == Err(r.failure.value)
  {
    if xs == [] then Decoded([], None)
    else match decode(xs[0])
      case Err(e) => Decoded([], Some(e))
      case Ok(x) =>
        var rest := DecodeEach(xs[1..], decode);
        Decoded([x] + rest.items, rest.failure)
  }

  /** The four properties of DecodeEach pin its result down. */
  lemma DecodeEachDetermined<T>(xs: seq<Json>, decode: Json -> Result<T>, items: seq<T>, failure: Option<JsonError>)
    requires |items| <= |xs|
    requires forall i :: 0 <= i < |items| ==> decode(xs[i]) == Ok(items[i])
    requires failure.None? ==> |items| == |xs|
    requires failure.Some? ==> |items| < |xs| && decode(xs[|items|]) == Err(failure.value)
    ensures DecodeEach(xs, decode) == Decoded(items, failure)
  {
    var r := DecodeEach(xs, decode);
    assert |r.items| == |items|;
    assert forall i :: 0 <= i < |items| ==> r.items[i] == items[i] by {
      forall i | 0 <= i < |items| ensures r.items[i] == items[i] {
        assert Ok(r.items[i]) == decode(xs[i]) == Ok(items[i]);
      }
    }
    assert r.items == items;
  }

  /** Outcome of json::parse on a text: the tree, or the exception's what() text. */
  datatype ParseResult = Parsed(tree: Json) | ParseFailed(what: string)

  function TypeName(j: Json): string {
    match j
    case JNull => "null"
    case JBool(_) => "boolean"
    case JNumber(_) => "number"
    case JString(_) => "string"
    case JArray(_) => "array"
    case JObject(_) => "object"
  }

  /** exception::what() for each error. */
  function What(e: JsonError): string {
    match e
    case TypeMismatch(expected, actual) =>
      "[json.exception.type_error.302] type must be " + expected + ", but is " + actual
    case NotAnObject(actual) =>
      "[json.exception.type_error.305] cannot use operator[] with a string argument with " + actual
    case MissingKey(key) => "key '" + key + "' not found"
  }

  /** The value of the first member named `key`. */
  function Lookup(members: seq<(string, Json)>, key: string): (r: Option<Json>)
    ensures r.Some? <==> exists i :: 0 <= i < |members| && members[i].0 == key
    ensures r.Some? ==> exists i :: 0 <= i < |members| && members[i] == (key, r.value)
  {
    if members == [] then None
    else if members[0].0 == key then Some(members[0].1)
    else
      var r := Lookup(members[1..], key);
      assert forall i :: 0 <= i < |members| - 1 ==> members[1..][i] == members[i + 1];
      assert (exists i :: 0 <= i < |members| && members[i].0 == key) ==> exists i :: 0 <= i < |members| - 1 && members[1..][i].0 == key by {
        if exists i :: 0 <= i < |members| && members[i].0 == key {
          var i :| 0 <= i < |members| && members[i].0 == key;
          assert members[1..][i - 1].0 == key;
        }
      }
      r
  }

  lemma LookupStep(k: string, v: Json, rest: seq<(string, Json)>, key: string)
    ensures Lookup([(k, v)] + rest, key) == if k == key then Some(v) else Lookup(rest, key)
  {
    assert ([(k, v)] + rest)[1..] == rest;
  }

  datatype Option<+T> = None | Some(value: T)

  /** json::contains(key): true only for an object that has a member named `key`. */
  predicate HasKey(j: Json, key: string) {
    j.JObject? && Lookup(j.members, key).Some?
  }

  /** The const operator[](key) of a json value. */
  function Field(j: Json, key: string): (r: Result<Json>)
    ensures r.Ok? <==> HasKey(j, key)
    ensures !j.JObject? ==> r == Err(NotAnObject(TypeName(j)))
  {
    if !j.JObject? then Err(NotAnObject(TypeName(j)))
    else match Lookup(j.members, key)
      case None => Err(MissingKey(key))
      case Some(v) => Ok(v)
  }

  /** On an object, `operator[]` gives the value of the key's first member, or MissingKey when there is none. */
  lemma FieldOfObject(j: Json, key: string)
    requires j.JObject?
    ensures HasKey(j, key) ==> Field(j, key) == Ok(Lookup(j.members, key).value)
    ensures !HasKey(j, key) ==> Field(j, key) == Err(MissingKey(key))
  {
  }

  /** The values a range-for visits: array items, object member values, nothing for null, the value itself otherwise. */
  function Elements(j: Json): seq<Json> {
    match j
    case JArray(items) => items
    case JObject(members) => seq(|members|, i requires 0 <= i < |members| => members[i].1)
    case JNull => []
    case _ => [j]
  }

  /** json::empty(). */
  predicate IsEmpty(j: Json) {
    match j
    case JNull => true
    case JArray(items) => items == []
    case JObject(members) => members == []
    case _ => false
  }

  lemma EmptyMeansNoElements(j: Json)
    ensures IsEmpty(j) <==> Elements(j) == []
  {
    if j.JObject? && j.members != [] {
      assert Elements(j)[0] == j.members[0].1;
    }
  }

  /** C++'s conversion of a floating value to an integer, which truncates toward zero. */
  function Truncate(r: real): (i: int)
    ensures r >= 0.0 ==> 0 <= i && i as real <= r < i as real + 1.0
    ensures r < 0.0 ==> i <= 0 && i as real - 1.0 < r <= i as real
  {
    if r >= 0.0 then r.Floor else -((-r).Floor)
  }

  /** get<int>(): numbers convert (fractions are cut off), so do booleans; anything else throws. */
  function AsInt(j: Json): (r: Result<int>)
    ensures r.Ok? <==> j.JNumber? || j.JBool?
    ensures j.JNumber? ==> r == Ok(Truncate(j.n))
    ensures j.JBool? ==> r == Ok(if j.b then 1 else 0)
  {
    match j
    case JNumber(n) => Ok(Truncate(n))
    case JBool(b) => Ok(if b then 1 else 0)
    case _ => Err(TypeMismatch("number", TypeName(j)))
  }

  /**
   * get<double>(): double is the library's own floating type, so the
   * conversion takes numbers only; a boolean throws like any other
   * non-number (unlike get<int>).
   */
  function AsReal(j: Json): (r: Result<real>)
    ensures r.Ok? <==> j.JNumber?
    ensures j.JNumber? ==> r == Ok(j.n)
    ensures !j.JNumber? ==> r == Err(TypeMismatch("number", TypeName(j)))
  {
    match j
    case JNumber(n) => Ok(n)
    case _ => Err(TypeMismatch("number", TypeName(j)))
  }

  /** get<std::string>(). */
  function AsString(j: Json): (r: Result<string>)
    ensures r.Ok? <==> j.JString?
    ensures j.JString? ==> r == Ok(j.s)
  {
    match j
    case JString(s) => Ok(s)
    case _ => Err(TypeMismatch("string", TypeName(j)))
  }

  /** An int written as a JSON number reads back as the same int. */
  lemma AsIntOfInt(k: int)
    ensures AsInt(JNumber(k as real)) == Ok(k)
  {
  }

  /** push_back on a json value that is null (it becomes an array) or already an array. */
  function PushBack(arr: Json, x: Json): (r: Json)
    requires arr.JNull? || arr.JArray?
    ensures r.JArray? && Elements(r) == Elements(arr) + [x]
  {
    if arr.JNull? then JArray([x]) else JArray(arr.items + [x])
  }

  predicate IsJsonBlank(c: char) {
    c == ' ' || c == '\t' || c == '\n' || c == '\r'
  }

  /**
   * After leading blanks, the first character can begin a value (section 2
   * of RFC 8259): an object, an array, a string, a number, or one of the
   * literals true, false, null.
   */
  predicate MayBeginValue(s: string) {
    if s == [] then false
    else if IsJsonBlank(s[0]) then MayBeginValue(s[1..])
    else s[0] in "{[\"-0123456789tfn"
  }

  /** The byte order mark, which nlohmann's lexer skips once at the very start of the input. */
  const ByteOrderMark: char := '\U{FEFF}'

  /** A text can be a JSON text for json::parse only if, past one optional byte order mark, it may begin a value. */
  predicate MayBeJsonText(s: string) {
    if s != [] && s[0] == ByteOrderMark then MayBeginValue(s[1..]) else MayBeginValue(s)
  }

  /** A parser that accepts only texts that can be JSON texts, a property json::parse has. */
  ghost predicate ConformingParser(parse: string -> ParseResult) {
    forall s :: parse(s).Parsed? ==> MayBeJsonText(s)
  }

  /** A text that starts with a byte order mark is still admitted when a value follows it. */
  lemma MarkedTextAdmitted(s: string)
    requires MayBeginValue(s)
    ensures MayBeJsonText([ByteOrderMark] + s)
  {
    assert ([ByteOrderMark] + s)[1..] == s;
  }
}
