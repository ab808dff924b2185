/**
The order of the Stratum handshake over the whole life of a session: what the framing filter forwards when the protocol
gate judges every line (src/net/reactor.cpp, process_client_bytes; src/stratum/validator.cpp, record_request).
*/
module Handshake {
  import opened Stratum
  import opened Framing
  import opened Gate
  import opened Sessions

  /** A forwarded line and the method the gate took it for. */
  datatype Forwarding = Forwarding(line: string, request: RequestMethod)

  /** The lines that the filter forwards, in order. */
  ghost function Forwarded(rules: Rules, text: string, protocol: ProtocolState, errors: nat): seq<Forwarding>
    decreases |text|
  {
    var n := Newline(text);
    if n == |text| then []
    else
      match Judge(rules, text[..n], protocol, errors)
      case Refuse => []
      case Drop => Forwarded(rules, text[n + 1..], protocol, errors + 1)
      case Forward(request) =>
        [Forwarding(text[..n], request)] + Forwarded(rules, text[n + 1..], RecordRequest(protocol, request), 0)
  }

  /** The bytes of forwarded lines. */
  ghost function Bytes(lines: seq<Forwarding>): string {
    if lines == [] then "" else lines[0].line + "\n" + Bytes(lines[1..])
  }

  lemma BytesFront(committed: string, text: string, n: nat, request: RequestMethod, lines: seq<Forwarding>)
    requires n < |text| && text[n] == '\n'
    ensures committed + Bytes([Forwarding(text[..n], request)] + lines) == committed + text[..n + 1] + Bytes(lines)
  {
    var all := [Forwarding(text[..n], request)] + lines;
    assert all[1..] == lines;
    assert text[..n + 1] == text[..n] + "\n";
    assert committed + (text[..n + 1] + Bytes(lines)) == committed + text[..n + 1] + Bytes(lines);
  }

  /** The filter commits exactly the bytes of the forwarded lines. */
  lemma {:induction false} CommittedIsForwarded(rules: Rules, text: string, protocol: ProtocolState, errors: nat,
                                                committed: string)
    ensures Scan(rules, text, protocol, errors, committed).committed
            == committed + Bytes(Forwarded(rules, text, protocol, errors))
    decreases |text|
  {
    var n := Newline(text);
    if n < |text| {
      var rest := text[n + 1..];
      match Judge(rules, text[..n], protocol, errors)
      case Refuse =>
      case Drop => CommittedIsForwarded(rules, rest, protocol, errors + 1, committed);
      case Forward(request) =>
        var state := RecordRequest(protocol, request);
        CommittedIsForwarded(rules, rest, state, 0, committed + text[..n + 1]);
        BytesFront(committed, text, n, request, Forwarded(rules, rest, state, 0));
    }
  }

  /** The protocol state after some forwarded lines. */
  ghost function Recorded(protocol: ProtocolState, lines: seq<Forwarding>): ProtocolState {
    if lines == [] then protocol
    else RecordRequest(Recorded(protocol, lines[..|lines| - 1]), lines[|lines| - 1].request)
  }

  ghost predicate Has(lines: seq<Forwarding>, request: RequestMethod) {
    exists i :: 0 <= i < |lines| && lines[i].request == request
  }

  /** The state says exactly what has been forwarded. */
  lemma {:induction false} RecordedMeans(lines: seq<Forwarding>)
    ensures var state := Recorded(INITIAL_STATE, lines);
            && (state.receivedMessage <==> lines != [])
            && (state.subscribed <==> Has(lines, Subscribe))
            && (state.authorized <==> Has(lines, Authorize))
            && (state.resumed <==> Has(lines, Resume))
  {
    if lines != [] {
      var n := |lines| - 1;
      var before := lines[..n];
      RecordedMeans(before);
      forall request: RequestMethod
        ensures Has(lines, request) <==> Has(before, request) || lines[n].request == request
      {
        if Has(before, request) {
          var i :| 0 <= i < |before| && before[i].request == request;
          assert lines[i].request == request;
        }
        if Has(lines, request) && lines[n].request != request {
          var i :| 0 <= i < |lines| && lines[i].request == request;
          assert before[i].request == request;
        }
      }
    }
  }

  lemma {:induction false} RecordedFront(protocol: ProtocolState, first: Forwarding, lines: seq<Forwarding>)
    ensures Recorded(protocol, [first] + lines) == Recorded(RecordRequest(protocol, first.request), lines)
  {
    if lines == [] {
      assert ([first] + lines)[..0] == [];
    } else {
      var n := |lines| - 1;
      RecordedFront(protocol, first, lines[..n]);
      assert ([first] + lines)[..n + 1] == [first] + lines[..n];
    }
  }

  /** Every forwarded line was accepted in the state that the lines forwarded before it lead to. */
  lemma {:induction false} ForwardedAccepted(rules: Rules, text: string, protocol: ProtocolState, errors: nat, j: nat)
    requires j < |Forwarded(rules, text, protocol, errors)|
    ensures var lines := Forwarded(rules, text, protocol, errors);
            rules.validate(lines[j].line, Recorded(protocol, lines[..j])) == Accepted(lines[j].request)
    decreases |text|
  {
    var n := Newline(text);
    var lines := Forwarded(rules, text, protocol, errors);
    var judgement := Judge(rules, text[..n], protocol, errors);
    if judgement.Drop? {
      ForwardedAccepted(rules, text[n + 1..], protocol, errors + 1, j);
    } else {
      var first := Forwarding(text[..n], judgement.request);
      var state := RecordRequest(protocol, judgement.request);
      var rest := Forwarded(rules, text[n + 1..], state, 0);
      assert lines == [first] + rest;
      if j > 0 {
        ForwardedAccepted(rules, text[n + 1..], state, 0, j - 1);
        RecordedFront(protocol, first, rest[..j - 1]);
        assert lines[..j] == [first] + rest[..j - 1];
      }
    }
  }

  // ---------- in terms of the methods that the lines call ----------

  /** The line is a call of the method. */
  ghost predicate Calls(json: Library, line: string, name: string) {
    var envelope := json.envelope(WithoutReturn(line));
    envelope.Call? && envelope.name == name
  }

  ghost predicate HasCall(json: Library, lines: seq<Forwarding>, name: string) {
    exists i :: 0 <= i < |lines| && Calls(json, lines[i].line, name)
  }

  ghost predicate MayComeFirst(config: ProtocolConfig, name: string) {
    || name in {"mining.authorize", "mining.configure", "mining.extranonce.subscribe"}
    || name in {"mining.subscribe", "mining.suggest_difficulty", "mining.resume"}
    || name in config.additionalInitial
  }

  /** The handshake order at one line, given the lines before it. */
  ghost predicate InOrder(config: ProtocolConfig, json: Library, lines: seq<Forwarding>, j: nat)
    requires j < |lines|
  {
    var before, line := lines[..j], lines[j].line;
    && (j == 0 ==> exists name :: Calls(json, line, name) && MayComeFirst(config, name))
    && (Calls(json, line, "mining.submit") ==>
          || (HasCall(json, before, "mining.subscribe") && HasCall(json, before, "mining.authorize"))
          || HasCall(json, before, "mining.resume"))
    && (Calls(json, line, "mining.get_transactions") ==> HasCall(json, before, "mining.subscribe"))
    && (Calls(json, line, "mining.update_password") ==> HasCall(json, before, "mining.authorize"))
  }

  ghost predicate AcceptedAt(config: ProtocolConfig, json: Library, lines: seq<Forwarding>, i: nat)
    requires i < |lines|
  {
    Validate(lines[i].line, Recorded(INITIAL_STATE, lines[..i]), config, json) == Accepted(lines[i].request)
  }

  /** An accepted line calls the method it is recorded as. */
  lemma RecordedAsCalled(config: ProtocolConfig, json: Library, lines: seq<Forwarding>, i: nat)
    requires i < |lines| && AcceptedAt(config, json, lines, i)
    ensures lines[i].request == Subscribe ==> Calls(json, lines[i].line, "mining.subscribe")
    ensures lines[i].request == Authorize ==> Calls(json, lines[i].line, "mining.authorize")
    ensures lines[i].request == Resume ==> Calls(json, lines[i].line, "mining.resume")
  {
  }

  /** So what is recorded was called. */
  lemma HasMeansCalled(config: ProtocolConfig, json: Library, lines: seq<Forwarding>, j: nat)
    requires j <= |lines| && forall i :: 0 <= i < j ==> AcceptedAt(config, json, lines, i)
    ensures Has(lines[..j], Subscribe) ==> HasCall(json, lines[..j], "mining.subscribe")
    ensures Has(lines[..j], Authorize) ==> HasCall(json, lines[..j], "mining.authorize")
    ensures Has(lines[..j], Resume) ==> HasCall(json, lines[..j], "mining.resume")
  {
    forall i | 0 <= i < j
      ensures lines[i].request == Subscribe ==> Calls(json, lines[..j][i].line, "mining.subscribe")
      ensures lines[i].request == Authorize ==> Calls(json, lines[..j][i].line, "mining.authorize")
      ensures lines[i].request == Resume ==> Calls(json, lines[..j][i].line, "mining.resume")
    {
      RecordedAsCalled(config, json, lines, i);
    }
  }

  /** A line that the gate accepts keeps the order with respect to the lines forwarded before it. */
  lemma GateInOrder(config: ProtocolConfig, json: Library, lines: seq<Forwarding>, j: nat)
    requires j < |lines| && forall i :: 0 <= i <= j ==> AcceptedAt(config, json, lines, i)
    ensures InOrder(config, json, lines, j)
  {
    RecordedMeans(lines[..j]);
    HasMeansCalled(config, json, lines, j);
    assert AcceptedAt(config, json, lines, j);
    var envelope := json.envelope(WithoutReturn(lines[j].line));
    if envelope.Call? {
      CallInSequence(envelope, Recorded(INITIAL_STATE, lines[..j]), config);
    }
    if j == 0 {
      FirstCall(envelope, config);
      assert Calls(json, lines[0].line, envelope.name);
    }
  }

  /** A call is accepted only where it belongs in the sequence. */
  lemma CallInSequence(envelope: Envelope, state: ProtocolState, config: ProtocolConfig)
    requires ValidateEnvelope(envelope, state, config).Accepted? && envelope.Call?
    ensures envelope.name == "mining.submit" ==> (state.subscribed && state.authorized) || state.resumed
    ensures envelope.name == "mining.get_transactions" ==> state.subscribed
    ensures envelope.name == "mining.update_password" ==> state.authorized
  {
  }

  /** Before any message only a call of an initial method is accepted. */
  lemma FirstCall(envelope: Envelope, config: ProtocolConfig)
    requires ValidateEnvelope(envelope, INITIAL_STATE, config).Accepted?
    ensures envelope.Call? && MayComeFirst(config, envelope.name)
  {
  }

  // ---------- whole streams and whole sessions ----------

  /** The gate judges the lines. */
  ghost predicate Gated(rules: Rules, config: ProtocolConfig, json: Library) {
    forall line, state :: rules.validate(line, state) == Validate(line, state, config, json)
  }

  lemma ForwardedInOrder(config: ProtocolConfig, json: Library, rules: Rules, text: string, j: nat)
    requires Gated(rules, config, json) && j < |Forwarded(rules, text, INITIAL_STATE, 0)|
    ensures InOrder(config, json, Forwarded(rules, text, INITIAL_STATE, 0), j)
  {
    var lines := Forwarded(rules, text, INITIAL_STATE, 0);
    forall i | 0 <= i <= j
      ensures AcceptedAt(config, json, lines, i)
    {
      ForwardedAccepted(rules, text, INITIAL_STATE, 0, i);
    }
    GateInOrder(config, json, lines, j);
  }

  lemma FedIsForwarded(rules: Rules, text: string)
    ensures Feed(rules, START, text).committed == Bytes(Forwarded(rules, text, INITIAL_STATE, 0))
  {
    assert "" + text == text;
    CommittedIsForwarded(rules, text, INITIAL_STATE, 0, "");
    var bytes := Bytes(Forwarded(rules, text, INITIAL_STATE, 0));
    assert "" + bytes == bytes;
  }

  /** Whatever bytes a miner sends and however they are cut, the lines forwarded to the pool keep the handshake order,
      and they are all that is forwarded. */
  lemma HandshakeOrder(config: ProtocolConfig, json: Library, rules: Rules, chunks: seq<string>, j: nat)
    requires Gated(rules, config, json)
    ensures var lines := Forwarded(rules, Concat(chunks), INITIAL_STATE, 0);
            && FeedAll(rules, START, chunks).committed == Bytes(lines)
            && (j < |lines| ==> InOrder(config, json, lines, j))
  {
    ChunkIndependence(rules, chunks);
    FedIsForwarded(rules, Concat(chunks));
    if j < |Forwarded(rules, Concat(chunks), INITIAL_STATE, 0)| {
      ForwardedInOrder(config, json, rules, Concat(chunks), j);
    }
  }

  /** In every state of every session: what it has sent to the pool and what it has queued for it are the PROXY header,
      if there is one, and lines of the client that keep the handshake order. */
  lemma SessionHandshake(s: Session, config: ProtocolConfig, json: Library, j: nat)
    requires s.Valid() && Gated(s.LineRules(), config, json)
    ensures var lines := Forwarded(s.LineRules(), s.received, INITIAL_STATE, 0);
            && s.sentUpstream + s.toUpstream.Contents() == s.Preamble() + Bytes(lines)
            && (j < |lines| ==> InOrder(config, json, lines, j))
  {
    s.Open();
    FilterIsFeed(s.LineRules(), s.received, 3);
    FedIsForwarded(s.LineRules(), s.received);
    if j < |Forwarded(s.LineRules(), s.received, INITIAL_STATE, 0)| {
      ForwardedInOrder(config, json, s.LineRules(), s.received, j);
    }
  }
}
