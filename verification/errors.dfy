/** The error payload an agent streams back (`copilot.Error`) and its closed `type` field. */
module Errors {
  import opened Wrappers
  import Json

  /** `ErrorType`: a struct around an unexported name, so only the three constants below and
      the zero value (empty name) can be built outside the decoder. */
  datatype ErrorType = ErrorType(name: string)
  {
    /** `ErrorType.String`. */
    function String(): (r: string)
      ensures Json.DecodeString(MarshalJSON()) == Success(r)
    {
      name
    }

    /** `ErrorType.MarshalJSON`: the name as a JSON string. The three constants round-trip
        through `UnmarshalJSON` whatever the receiver held; the zero value is rejected. */
    function MarshalJSON(): (r: Json.Value)
      ensures Json.DecodeString(r) == Success(name)
      ensures IsKnown(this) ==> forall recv: ErrorType :: recv.UnmarshalJSON(r) == Json.Unmarshalled(this, None)
      ensures name == "" ==> forall recv: ErrorType :: recv.UnmarshalJSON(r).err.Some?
    {
      Json.Str(name)
    }

    /** `(*ErrorType).UnmarshalJSON` with `this` as the receiver before the call: accepts
        exactly the three names, and assigns the receiver only after the check. */
    function UnmarshalJSON(data: Json.Value): (r: Json.Unmarshalled<ErrorType>)
      ensures r.err.None? <==> data.Str? && data.s in {"agent", "function", "reference"}
      ensures r.err.None? ==> r.receiver == ErrorType(data.s) && IsKnown(r.receiver)
      ensures r.err.Some? ==> r.receiver == this
      ensures !data.NonString? && r.err.Some? ==>
                r.err == Some("invalid agent error type, got " + Json.DecodeString(data).value)
      ensures data.NonString? ==> r.err == Some(Json.NotAStringError)
    {
      match Json.DecodeString(data)
      case Failure(e) => Json.Unmarshalled(this, Some(e))
      case Success(s) =>
        if s != Agent.name && s != Function.name && s != Reference.name then
          Json.Unmarshalled(this, Some("invalid agent error type, got " + s))
        else
          Json.Unmarshalled(ErrorType(s), None)
    }
  }

  const Reference: ErrorType := ErrorType("reference")
  const Function: ErrorType := ErrorType("function")
  const Agent: ErrorType := ErrorType("agent")

  predicate IsKnown(t: ErrorType)
  {
    t == Agent || t == Function || t == Reference
  }

  /** `copilot.Error`. */
  datatype Error = Error(typ: ErrorType, code: string, message: string, identifier: string)
  {
    /** `(*Error).Error`: the text shown to the user is the message alone; type, code and
        identifier do not appear in it. */
    function Text(): (r: string)
      ensures r == message
    {
      message
    }
  }
}
