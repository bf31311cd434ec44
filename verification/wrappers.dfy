/** Optional values and results with an error, standing in for Go's nil pointers and
    `(value, error)` returns. */
module Wrappers {

  datatype Option<+T> = None | Some(value: T)

  datatype Result<+T, +E> = Success(value: T) | Failure(error: E)
}

/** The one piece of the JSON layer the closed enums see: a JSON text is a string literal
    (with its decoded contents), the literal `null`, or something else, which `json.Unmarshal`
    into a Go `string` rejects. */
module Json {
  import opened Wrappers

  datatype Value = Str(s: string) | Null | NonString(text: string)

  /** Error produced by `json.Unmarshal` into a `string` target when the text is not a JSON string. */
  const NotAStringError: string := "json: cannot unmarshal into Go value of type string"

  /** `json.Unmarshal(data, &s)` with `s string` freshly declared: `null` is accepted and
      leaves `s` as it was, the empty string. */
  function DecodeString(v: Value): (r: Result<string, string>)
    ensures r.Success? <==> !v.NonString?
    ensures v.Str? ==> r == Success(v.s)
    ensures v.Null? ==> r == Success("")
    ensures v.NonString? ==> r == Failure(NotAStringError)
  {
    match v
    case Str(s) => Success(s)
    case Null => Success("")
    case NonString(_) => Failure(NotAStringError)
  }

  /** What a Go `UnmarshalJSON` method with a pointer receiver leaves behind: the receiver's
      new value and the error it returned. */
  datatype Unmarshalled<T> = Unmarshalled(receiver: T, err: Option<string>)

  /** `json.Marshal(s)` with `s string`. */
  function EncodeString(s: string): (r: Value)
    ensures DecodeString(r) == Success(s)
  {
    Str(s)
  }
}
