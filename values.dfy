/** JavaScript values as they reach the console's code after `JSON.parse`,
    together with the handful of JavaScript operators the core applies to
    them: optional property access, `??`, truthiness, `String(v)` and the
    `instanceof Error` test of a `catch` clause. */
module Values {

  datatype Option<+T> = None | Some(value: T)

  datatype Result<+T, +E> = Success(value: T) | Failure(error: E)

  /** A JSON number, carried as its canonical JavaScript rendering
      (what `String(n)` prints). No arithmetic is done on numbers here. */
  datatype Number = Number(text: string)

  /** A parsed JSON value. An object is a map from member names to values;
      `JSON.parse` keeps the last of duplicated names. */
  datatype Json =
    | JNull
    | JBool(b: bool)
    | JNumber(n: Number)
    | JString(s: string)
    | JArray(elems: seq<Json>)
    | JObject(members: map<string, Json>)

  /** `v?.key` for a key that no prototype defines: the member of an object,
      `undefined` (None) for everything else, including `null`. */
  function Member(v: Json, key: string): (r: Option<Json>)
    ensures r.Some? <==> v.JObject? && key in v.members
    ensures r.Some? ==> r.value == v.members[key]
  {
    match v
    case JObject(m) => if key in m then Some(m[key]) else None
    case _ => None
  }

  /** `null` or `undefined`: what `??` and `?.` treat as absent. */
  predicate Nullish(o: Option<Json>) {
    o.None? || o.value.JNull?
  }

  /** `o ?? fallback` */
  function Coalesce(o: Option<Json>, fallback: Json): (r: Json)
    ensures Nullish(o) ==> r == fallback
    ensures !Nullish(o) ==> r == o.value
    ensures r.JNull? ==> fallback.JNull?
  {
    if Nullish(o) then fallback else o.value
  }

  /** JavaScript truthiness. A number read from JSON is never NaN, so the
      only falsy numbers are zero (rendered "0"). */
  predicate Truthy(o: Option<Json>) {
    match o
    case None => false
    case Some(JNull) => false
    case Some(JBool(b)) => b
    case Some(JNumber(n)) => n.text != "0"
    case Some(JString(s)) => s != ""
    case Some(_) => true
  }

  /** The `TypeError` V8 raises when `String(v)` finds no callable
      `toString` or `valueOf` that returns a primitive. */
  const CannotConvertMessage := "Cannot convert object to primitive value"

  /** `String(v)` for a JSON value, as `new Error(v)` applies it. Arrays
      join their elements with "," (null elements print as the empty
      string). An object prints as "[object Object]" unless it has an own
      `toString` member: JSON holds no functions, so that member is not
      callable and hides the inherited one, the inherited `valueOf` returns
      the object itself, and the conversion throws. An array throws when
      one of its elements does. */
  function ToJsString(v: Json): (r: Result<string, Fault>)
    ensures r.Failure? ==> r.error == ErrorObject(CannotConvertMessage)
    ensures v.JNull? ==> r == Success("null")
    ensures v.JBool? ==> r == Success(if v.b then "true" else "false")
    ensures v.JNumber? ==> r == Success(v.n.text)
    ensures v.JString? ==> r == Success(v.s)
    ensures v.JObject? ==> (r.Failure? <==> "toString" in v.members)
    ensures v.JObject? && r.Success? ==> r.value == "[object Object]"
    ensures v.JArray? ==> (r.Failure? <==> exists i | 0 <= i < |v.elems| :: ToJsString(v.elems[i]).Failure?)
    decreases v, 1
  {
    match v
    case JNull => Success("null")
    case JBool(b) => Success(if b then "true" else "false")
    case JNumber(n) => Success(n.text)
    case JString(s) => Success(s)
    case JObject(m) =>
      if "toString" in m then Failure(ErrorObject(CannotConvertMessage)) else Success("[object Object]")
    case JArray(elems) => JoinElements(v, elems)
  }

  /** `Array.prototype.join(",")` over the elements of `whole`, converting
      each from left to right. */
  function JoinElements(whole: Json, elems: seq<Json>): (r: Result<string, Fault>)
    requires forall i | 0 <= i < |elems| :: elems[i] < whole
    ensures r.Failure? ==> r.error == ErrorObject(CannotConvertMessage)
    ensures r.Failure? <==> exists i | 0 <= i < |elems| :: ToJsString(elems[i]).Failure?
    decreases whole, 0, |elems|
  {
    if elems == [] then Success("")
    else
      var first := if elems[0].JNull? then Success("") else ToJsString(elems[0]);
      if first.Failure? then first
      else if |elems| == 1 then first
      else
        var rest := JoinElements(whole, elems[1..]);
        assert rest.Failure? <==> exists i | 0 <= i < |elems| - 1 :: ToJsString(elems[1..][i]).Failure?;
        assert (exists i | 0 <= i < |elems| - 1 :: ToJsString(elems[1..][i]).Failure?)
           <==> (exists i | 1 <= i < |elems| :: ToJsString(elems[i]).Failure?) by {
          forall i | 0 <= i < |elems| - 1 ensures elems[1..][i] == elems[i + 1] {}
        }
        match rest
        case Failure(f) => Failure(f)
        case Success(s) => Success(first.value + "," + s)
  }

  /** What a `throw` can carry: an `Error` object (with its message) or any
      other value. */
  datatype Fault = ErrorObject(message: string) | NotAnError

  /** `err instanceof Error ? err.message : fallback` */
  function MessageOr(f: Fault, fallback: string): (m: string)
    ensures f.ErrorObject? ==> m == f.message
    ensures f.NotAnError? ==> m == fallback
  {
    match f
    case ErrorObject(message) => message
    case NotAnError => fallback
  }

  /** The `TypeError` V8 raises when a non-function is called, naming the
      callee as it stands in the source. */
  function NotAFunction(callee: string): Fault {
    ErrorObject(callee + " is not a function")
  }

  /** The `TypeError` V8 raises when a property of `null` is read. */
  function NullRead(property: string): Fault {
    ErrorObject("Cannot read properties of null (reading '" + property + "')")
  }
}
