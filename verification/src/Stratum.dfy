/** Request methods and the per-session handshake state (src/stratum/validator.hpp, validator.cpp). */
module Stratum {

  datatype RequestMethod =
    | Unknown
    | Authorize
    | Capabilities
    | Configure
    | ExtranonceSubscribe
    | GetTransactions
    | MultiVersion
    | Resume
    | Submit
    | Subscribe
    | SuggestDifficulty
    | SuggestTarget
    | UpdatePassword
    | Extension
    | Response

  datatype ValidationError =
    | Empty
    | TooDeep
    | InvalidJson
    | InvalidShape
    | InvalidMethod
    | InvalidInitialMethod
    | InvalidSequence
    | InvalidId
    | InvalidParams

  datatype Verdict = Accepted(request: RequestMethod) | Rejected(error: ValidationError)

  datatype ProtocolState = ProtocolState(receivedMessage: bool, subscribed: bool, authorized: bool, resumed: bool)

  const INITIAL_STATE: ProtocolState := ProtocolState(false, false, false, false)

  function RecordRequest(state: ProtocolState, request: RequestMethod): ProtocolState {
    var seen := state.(receivedMessage := true);
    match request
    case Subscribe => seen.(subscribed := true)
    case Authorize => seen.(authorized := true)
    case Resume => seen.(resumed := true)
    case _ => seen
  }
}
