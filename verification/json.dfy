/**
 * Parsed request bodies as the route handlers see them: the value produced
 * by `request.json()`, and the few JavaScript operations the handlers apply
 * to it (truthiness, `typeof`, property reads and string conversion).
 */
module Json {
  import opened Wrappers
  import opened Text

  /** A JSON value. Numbers are integers in this model. */
  datatype Json =
    | JNull
    | JBool(b: bool)
    | JNum(n: int)
    | JStr(s: string)
    | JArr(items: seq<Json>)
    | JObj(fields: map<string, Json>)

  /** What `request.json()` yields: `Malformed` when the body is not valid JSON and the call throws. */
  datatype Body = Malformed | Parsed(value: Json)

  /** JavaScript truthiness of a parsed value (`!v` is its negation). */
  predicate Truthy(v: Json) {
    match v
    case JNull => false
    case JBool(b) => b
    case JNum(n) => n != 0
    case JStr(s) => s != ""
    case JArr(_) => true
    case JObj(_) => true
  }

  /** `typeof v`; note that `typeof null` and `typeof []` are both "object". */
  function TypeOf(v: Json): string {
    match v
    case JNull => "object"
    case JBool(_) => "boolean"
    case JNum(_) => "number"
    case JStr(_) => "string"
    case JArr(_) => "object"
    case JObj(_) => "object"
  }

  /**
   * `v?.key` for the keys the routes read (none of which is a property that
   * arrays, strings or `Object.prototype` supply): only an object's own
   * member is found, and `None` is `undefined`.
   */
  function Field(v: Json, key: string): (r: Option<Json>)
    ensures r.Some? <==> v.JObj? && key in v.fields
    ensures r.Some? ==> r.value == v.fields[key]
  {
    if v.JObj? && key in v.fields then Some(v.fields[key]) else None
  }

  /**
   * Whether `String(v)` throws a `TypeError`. JSON text cannot hold a
   * function, so an object with its own `toString` member has no callable
   * conversion: `v.toString()` fails on it directly, and joining an array
   * fails on it as an element (its `valueOf` gives back the object, which is
   * no primitive either). Every other value converts.
   */
  predicate ToStringThrows(v: Json)
    decreases v
  {
    match v
    case JObj(fields) => "toString" in fields
    case JArr(items) => exists i | 0 <= i < |items| :: ToStringThrows(items[i])
    case _ => false
  }

  /**
   * `String(v)` / `v.toString()`, or `None` where that throws. Arrays are
   * joined with commas, `null` elements becoming "".
   */
  function StringForm(v: Json): (r: Option<string>)
    ensures r.None? <==> ToStringThrows(v)
    ensures v.JStr? ==> r == Some(v.s)
    ensures v.JObj? && r.Some? ==> r.value == "[object Object]"
    decreases v
  {
    match v
    case JNull => Some("null")
    case JBool(b) => Some(if b then "true" else "false")
    case JNum(n) => Some(IntToString(n))
    case JStr(s) => Some(s)
    case JArr(items) =>
      var parts := seq(|items|, i requires 0 <= i < |items| =>
                         if items[i].JNull? then Some("") else StringForm(items[i]));
      assert forall i | 0 <= i < |items| :: parts[i].None? <==> ToStringThrows(items[i]);
      JoinWithCommas(parts)
    case JObj(fields) => if "toString" in fields then None else Some("[object Object]")
  }

  /** `parts.join(",")` over converted elements; it throws as soon as one conversion does. */
  function JoinWithCommas(parts: seq<Option<string>>): (r: Option<string>)
    ensures r.None? <==> exists i | 0 <= i < |parts| :: parts[i].None?
  {
    if parts == [] then Some("")
    else
      var init := JoinWithCommas(parts[..|parts| - 1]);
      var last := parts[|parts| - 1];
      assert forall i | 0 <= i < |parts| - 1 :: parts[..|parts| - 1][i] == parts[i];
      if init.None? || last.None? then None
      else if |parts| == 1 then last
      else Some(init.value + "," + last.value)
  }

  /**
   * `(v?.key ?? "").toString()`: the string form of a field, where a missing
   * or null field gives "" and a string field gives itself; `None` where the
   * conversion throws.
   */
  function FieldText(v: Json, key: string): (r: Option<string>)
    ensures Field(v, key).None? || Field(v, key) == Some(JNull) ==> r == Some("")
    ensures Field(v, key).Some? && Field(v, key).value.JStr? ==> r == Some(Field(v, key).value.s)
    ensures r.None? <==> Field(v, key).Some? && ToStringThrows(Field(v, key).value)
  {
    match Field(v, key)
    case None => Some("")
    case Some(JNull) => Some("")
    case Some(field) => StringForm(field)
  }

  /**
   * `((await request.json())?.key ?? "").toString().trim()` inside a
   * handler's `try` block: `None` where `request.json()` or the conversion
   * throws. Otherwise a missing or null field gives "", a string field gives
   * itself trimmed, and the text is empty exactly when the field's string
   * form is blank.
   */
  function TrimmedFieldText(body: Body, key: string): (text: Option<string>)
    ensures text.None? <==> body.Malformed? || FieldText(body.value, key).None?
    ensures (body.Parsed? && (Field(body.value, key).None? || Field(body.value, key) == Some(JNull)))
              ==> text == Some("")
    ensures (body.Parsed? && Field(body.value, key).Some? && Field(body.value, key).value.JStr?)
              ==> text == Some(Trim(Field(body.value, key).value.s))
    ensures text.Some? ==> (text.value == "" <==> IsBlank(FieldText(body.value, key).value))
  {
    if body.Malformed? then None
    else
      match FieldText(body.value, key)
      case None => None
      case Some(s) => Some(Trim(s))
  }

  /** The text a handler goes on with has no white space left to trim. */
  lemma TrimmedFieldTextIsTrimmed(body: Body, key: string)
    requires TrimmedFieldText(body, key).Some?
    ensures Trim(TrimmedFieldText(body, key).value) == TrimmedFieldText(body, key).value
  {
    TrimIdempotent(FieldText(body.value, key).value);
  }
}
