/** Confirmations: the agent asks the user to approve an action (`Confirmation`), and the
    client reports the user's answer (`ClientConfirmation`). */
module Confirmations {
  import opened Wrappers
  import Json

  /** `Confirmation`: its `type` is a plain string, so decoding does not validate it; the
      `confirmation` payload is arbitrary JSON, kept as its text. */
  datatype Confirmation = Confirmation(typ: string, title: string, message: string, confirmation: string)

  /** `ConfirmationType`: a struct around an unexported name; `Action` is the one constant. */
  datatype ConfirmationType = ConfirmationType(name: string)
  {
    /** `ConfirmationType.MarshalJSON`: `Action` round-trips through `UnmarshalJSON` whatever
        the receiver held; the zero value marshals to "" and is rejected. */
    function MarshalJSON(): (r: Json.Value)
      ensures Json.DecodeString(r) == Success(name)
      ensures this == Action ==> forall recv: ConfirmationType :: recv.UnmarshalJSON(r) == Json.Unmarshalled(Action, None)
      ensures name == "" ==> forall recv: ConfirmationType :: recv.UnmarshalJSON(r).err.Some?
    {
      Json.Str(name)
    }

    /** `(*ConfirmationType).UnmarshalJSON` with `this` as the receiver before the call:
        accepts only "action"; on rejection the receiver keeps its old value. */
    function UnmarshalJSON(data: Json.Value): (r: Json.Unmarshalled<ConfirmationType>)
      ensures r.err.None? <==> data == Json.Str("action")
      ensures r.err.None? ==> r.receiver == Action
      ensures r.err.Some? ==> r.receiver == this
      ensures !data.NonString? && r.err.Some? ==> r.err == Some("invalid agent confirmation type")
      ensures data.NonString? ==> r.err == Some(Json.NotAStringError)
    {
      match Json.DecodeString(data)
      case Failure(e) => Json.Unmarshalled(this, Some(e))
      case Success(action) =>
        if action != Action.name then Json.Unmarshalled(this, Some("invalid agent confirmation type"))
        else Json.Unmarshalled(ConfirmationType(action), None)
    }
  }

  const Action: ConfirmationType := ConfirmationType("action")

  /** `ClientConfirmation`: the user's answer and the payload of the confirmation it answers. */
  datatype ClientConfirmation = ClientConfirmation(state: ClientConfirmationState, confirmation: string)

  /** `ClientConfirmationState`: a struct around an unexported name; `Accepted` and
      `Dismissed` are the constants. */
  datatype ClientConfirmationState = ClientConfirmationState(name: string)
  {
    /** `ClientConfirmationState.MarshalJSON`: both constants round-trip through
        `UnmarshalJSON` whatever the receiver held; the zero value is rejected. */
    function MarshalJSON(): (r: Json.Value)
      ensures Json.DecodeString(r) == Success(name)
      ensures this == Accepted || this == Dismissed ==>
                forall recv: ClientConfirmationState :: recv.UnmarshalJSON(r) == Json.Unmarshalled(this, None)
      ensures name == "" ==> forall recv: ClientConfirmationState :: recv.UnmarshalJSON(r).err.Some?
    {
      Json.Str(name)
    }

    /** `(*ClientConfirmationState).UnmarshalJSON` with `this` as the receiver before the call:
        accepts only "accepted" and "dismissed"; on rejection the receiver keeps its old value. */
    function UnmarshalJSON(data: Json.Value): (r: Json.Unmarshalled<ClientConfirmationState>)
      ensures r.err.None? <==> data == Json.Str("accepted") || data == Json.Str("dismissed")
      ensures r.err.None? ==> r.receiver == ClientConfirmationState(data.s)
      ensures r.err.Some? ==> r.receiver == this
      ensures !data.NonString? && r.err.Some? ==> r.err == Some("invalid client confirmation state")
      ensures data.NonString? ==> r.err == Some(Json.NotAStringError)
    {
      match Json.DecodeString(data)
      case Failure(e) => Json.Unmarshalled(this, Some(e))
      case Success(state) =>
        if state != Accepted.name && state != Dismissed.name then
          Json.Unmarshalled(this, Some("invalid client confirmation state"))
        else
          Json.Unmarshalled(ClientConfirmationState(state), None)
    }
  }

  const Accepted: ClientConfirmationState := ClientConfirmationState("accepted")
  const Dismissed: ClientConfirmationState := ClientConfirmationState("dismissed")
}
