/**
The protocol gate: which lines of a miner are requests it may send now (src/stratum/validator.cpp, validate_request and
its helpers). What the JSON library makes of a line is an input of the model.
*/
module Gate {
  import opened Options
  import opened Stratum
  import opened JsonDepth

  const MAXIMUM_PROTOCOL_METHOD_BYTES := 128

  datatype ProtocolConfig = ProtocolConfig(
    maxJsonDepth: int, allowUnknownMiningMethods: bool, additionalAllowed: seq<string>, additionalInitial: seq<string>)

  /** What the library reads from a line that starts with a brace. */
  datatype Envelope =
    | Unreadable
    | Reply(readable: bool, shaped: bool, idAccepted: bool)  // no method
    | OddMethod(quoted: bool)                                // a method that does not decode as a string
    | Call(name: string, id: Option<ValidationError>, params: RequestMethod -> Option<ValidationError>)

  /** The library: whether a line is JSON at all, and its envelope. */
  datatype Library = Library(readable: string -> bool, envelope: string -> Envelope)

  /** The methods known by name. */
  function BuiltIn(name: string): RequestMethod {
    match name
    case "mining.authorize" => Authorize
    case "mining.capabilities" => Capabilities
    case "mining.configure" => Configure
    case "mining.extranonce.subscribe" => ExtranonceSubscribe
    case "mining.get_transactions" => GetTransactions
    case "mining.multi_version" => MultiVersion
    case "mining.resume" => Resume
    case "mining.submit" => Submit
    case "mining.subscribe" => Subscribe
    case "mining.suggest_difficulty" => SuggestDifficulty
    case "mining.suggest_target" => SuggestTarget
    case "mining.update_password" => UpdatePassword
    case _ => Unknown
  }

  function AllowedMethod(name: string, config: ProtocolConfig): Option<RequestMethod> {
    var builtIn := BuiltIn(name);
    if builtIn != Unknown then Some(builtIn)
    else if name in config.additionalAllowed then Some(Extension)
    else if config.allowUnknownMiningMethods && "mining." <= name && |name| <= MAXIMUM_PROTOCOL_METHOD_BYTES then
      Some(Extension)
    else None
  }

  predicate AllowedInitial(request: RequestMethod, name: string, config: ProtocolConfig) {
    match request
    case Authorize | Configure | ExtranonceSubscribe | Subscribe | SuggestDifficulty | Resume => true
    case Extension => name in config.additionalInitial
    case _ => false
  }

  predicate ValidSequence(request: RequestMethod, state: ProtocolState) {
    match request
    case Submit => (state.subscribed && state.authorized) || state.resumed
    case GetTransactions => state.subscribed
    case UpdatePassword => state.authorized
    case _ => true
  }

  function WithoutReturn(line: string): string {
    if line != "" && line[|line| - 1] == '\r' then line[..|line| - 1] else line
  }

  /** The first character that is not whitespace. */
  function Front(line: string): Option<char> {
    if line == "" then None else if line[0] in " \t\n\r" then Front(line[1..]) else Some(line[0])
  }

  function Validate(line: string, state: ProtocolState, config: ProtocolConfig, json: Library): Verdict {
    var text := WithoutReturn(line);
    if text == "" then Rejected(Empty)
    else if !WithinDepth(text, config.maxJsonDepth) then Rejected(TooDeep)
    else
      match Front(text)
      case None => Rejected(InvalidJson)
      case Some(c) =>
        if c != '{' then Rejected(if json.readable(text) then InvalidShape else InvalidJson)
        else ValidateEnvelope(json.envelope(text), state, config)
  }

  function ValidateEnvelope(envelope: Envelope, state: ProtocolState, config: ProtocolConfig): Verdict {
    match envelope
    case Unreadable => Rejected(InvalidJson)
    case Reply(readable, shaped, idAccepted) =>
      if !state.receivedMessage then Rejected(InvalidShape)
      else if !readable then Rejected(InvalidJson)
      else if !shaped then Rejected(InvalidShape)
      else if !idAccepted then Rejected(InvalidId)
      else Accepted(Response)
    case OddMethod(quoted) => Rejected(if quoted then InvalidJson else InvalidShape)
    case Call(name, id, params) =>
      match AllowedMethod(name, config)
      case None => Rejected(InvalidMethod)
      case Some(request) =>
        if !state.receivedMessage && !AllowedInitial(request, name, config) then Rejected(InvalidInitialMethod)
        else if !ValidSequence(request, state) then Rejected(InvalidSequence)
        else if id.Some? then Rejected(id.value)
        else if params(request).Some? then Rejected(params(request).value)
        else Accepted(request)
  }
}
