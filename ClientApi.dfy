/** The shape coercion the client service applies to the answers of the filter endpoints
    (channels, managements, sub-managements): the endpoints answer either a bare array or an
    object wrapping the array in `data`. */
module ClientApi {
  import opened Prelude

  /** A JavaScript value as a response body can hold it. */
  datatype JsValue =
    | Undefined
    | Null
    | Bool(b: bool)
    | Num(n: real)
    | Str(s: string)
    | Arr(items: seq<JsValue>)
    | Obj(fields: map<string, JsValue>)

  /** `v.data`: an object's own field, and `undefined` for a missing field or a primitive.
      On `null` and `undefined` the access throws a TypeError, which is `None` here. */
  function DataField(v: JsValue): (r: Option<JsValue>)
    ensures r.None? <==> v.Null? || v.Undefined?
  {
    match v
    case Undefined => None
    case Null => None
    case Obj(fields) => Some(if "data" in fields then fields["data"] else Undefined)
    case _ => Some(Undefined)
  }

  /** `parseFilterResponse` as written: the array itself, else the `data` field when it is
      an array, else the empty list; the `data` access makes a `null` or `undefined` body
      throw (`Err`). */
  function ParseFilterResponseAsWritten(v: JsValue): (r: Result<seq<JsValue>, string>)
    ensures r.Err? <==> v.Null? || v.Undefined?
  {
    if v.Arr? then Ok(v.items)
    else match DataField(v)
      case None => Err("TypeError")
      case Some(d) => if d.Arr? then Ok(d.items) else Ok([])
  }

  /** A filter endpoint that answers `null` makes the client service throw instead of giving
      an empty list. */
  lemma ParseFilterResponseThrowsOnNull()
    ensures ParseFilterResponseAsWritten(Null).Err?
    ensures ParseFilterResponseAsWritten(Undefined).Err?
    ensures ParseFilterResponse(Null) == []
  {
  }

  /** The parser with the evident intent: every body that is neither an array nor an object
      wrapping one gives the empty list. */
  function ParseFilterResponse(v: JsValue): (r: seq<JsValue>)
    ensures v.Arr? ==> r == v.items
    ensures v.Null? || v.Undefined? ==> r == []
  {
    if v.Arr? then v.items
    else if v.Obj? && "data" in v.fields && v.fields["data"].Arr? then v.fields["data"].items
    else []
  }

  /** The three cases, the array check first: a bare array comes back as it is (even an
      array object that also had a `data` field could not change that), a wrapped array is
      unwrapped, anything else is empty. The as-written parser agrees on every body except
      `null` and `undefined`. */
  lemma ParseFilterResponseMeaning(v: JsValue)
    ensures v.Arr? ==> ParseFilterResponse(v) == v.items
    ensures !v.Arr? && v.Obj? && "data" in v.fields && v.fields["data"].Arr? ==>
      ParseFilterResponse(v) == v.fields["data"].items
    ensures !v.Arr? && !(v.Obj? && "data" in v.fields && v.fields["data"].Arr?) ==> ParseFilterResponse(v) == []
    ensures !v.Null? && !v.Undefined? ==> ParseFilterResponseAsWritten(v) == Ok(ParseFilterResponse(v))
    ensures v.Null? || v.Undefined? ==> ParseFilterResponseAsWritten(v).Err?
  {
  }

  /** Parsing is idempotent on its own output wrapped back as an array, and unwrapping then
      parsing the wrapper gives the same list. */
  lemma ParseFilterResponseWrap(items: seq<JsValue>, others: map<string, JsValue>)
    ensures ParseFilterResponse(Arr(ParseFilterResponse(Arr(items)))) == items
    ensures ParseFilterResponse(Obj(others["data" := Arr(items)])) == ParseFilterResponse(Arr(items))
  {
  }
}
