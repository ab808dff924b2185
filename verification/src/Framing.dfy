/**
Line framing of the client stream (src/net/reactor.cpp, process_client_bytes), as a filter on the whole stream:
which bytes are forwarded, what is left of an unfinished line, and where the session is refused. The filter is
parameterised by an arbitrary request validator.
*/
module Framing {
  import opened Stratum

  const MAXIMUM_CONSECUTIVE_PROTOCOL_ERRORS: nat := 32

  type Validator = (string, ProtocolState) -> Verdict

  datatype Rules = Rules(maxLineBytes: nat, validate: Validator)

  /** Where a client stream stands: `committed` are the forwarded bytes, `tail` the unfinished line. */
  datatype Progress =
    | Live(tail: string, protocol: ProtocolState, errors: nat, committed: string)
    | Refused(committed: string)

  const START: Progress := Live("", INITIAL_STATE, 0, "")

  /** Index of the first newline, or the length when there is none. */
  function Newline(text: string): (n: nat)
    ensures n <= |text|
    ensures n < |text| ==> text[n] == '\n'
    ensures forall i :: 0 <= i < n ==> text[i] != '\n'
  {
    if text == "" then 0 else if text[0] == '\n' then 0 else 1 + Newline(text[1..])
  }

  lemma NewlineUnique(text: string, n: nat)
    requires n <= |text| && (n < |text| ==> text[n] == '\n')
    requires forall i :: 0 <= i < n ==> text[i] != '\n'
    ensures Newline(text) == n
  {
  }

  /** What happens to one complete line. */
  datatype Judgement = Refuse | Drop | Forward(request: RequestMethod)

  function Judge(rules: Rules, line: string, protocol: ProtocolState, errors: nat): (j: Judgement)
    ensures j.Forward? ==> |line| <= rules.maxLineBytes && rules.validate(line, protocol) == Accepted(j.request)
    ensures j.Drop? ==> protocol.receivedMessage && errors < MAXIMUM_CONSECUTIVE_PROTOCOL_ERRORS
  {
    if |line| > rules.maxLineBytes then Refuse
    else
      match rules.validate(line, protocol)
      case Accepted(request) => Forward(request)
      case Rejected(_) =>
        if !protocol.receivedMessage || errors + 1 > MAXIMUM_CONSECUTIVE_PROTOCOL_ERRORS then Refuse else Drop
  }

  /** The filter: judges each complete line of `text` in order, threading the protocol state and the count of
      consecutive refused lines. */
  function Scan(rules: Rules, text: string, protocol: ProtocolState, errors: nat, committed: string): (r: Progress)
    decreases |text|
  {
    var n := Newline(text);
    if n == |text| then
      if |text| > rules.maxLineBytes then Refused(committed) else Live(text, protocol, errors, committed)
    else
      match Judge(rules, text[..n], protocol, errors)
      case Refuse => Refused(committed)
      case Drop => Scan(rules, text[n + 1..], protocol, errors + 1, committed)
      case Forward(request) =>
        Scan(rules, text[n + 1..], RecordRequest(protocol, request), 0, committed + text[..n + 1])
  }

  function Feed(rules: Rules, progress: Progress, bytes: string): (r: Progress) {
    match progress
    case Refused(_) => progress
    case Live(tail, protocol, errors, committed) => Scan(rules, tail + bytes, protocol, errors, committed)
  }

  function FeedAll(rules: Rules, progress: Progress, chunks: seq<string>): (r: Progress)
    decreases |chunks|
  {
    if chunks == [] then progress
    else Feed(rules, FeedAll(rules, progress, chunks[..|chunks| - 1]), chunks[|chunks| - 1])
  }

  function Concat(chunks: seq<string>): string {
    if chunks == [] then "" else Concat(chunks[..|chunks| - 1]) + chunks[|chunks| - 1]
  }

  /** More bytes do not move the first newline, nor what precedes and follows it. */
  lemma NewlineStays(text: string, more: string)
    requires Newline(text) < |text|
    ensures var n := Newline(text);
            && Newline(text + more) == n
            && (text + more)[..n] == text[..n]
            && (text + more)[..n + 1] == text[..n + 1]
            && (text + more)[n + 1..] == text[n + 1..] + more
  {
    NewlineUnique(text + more, Newline(text));
  }

  lemma {:induction false} OverlongStaysRefused(rules: Rules, text: string, protocol: ProtocolState, errors: nat,
                                                committed: string, more: string)
    requires Newline(text) == |text| > rules.maxLineBytes
    ensures Scan(rules, text + more, protocol, errors, committed) == Refused(committed)
  {
    assert forall i :: 0 <= i < |text| ==> (text + more)[i] == text[i];
  }

  lemma {:induction false} FeedAfterScan(rules: Rules, text: string, protocol: ProtocolState, errors: nat,
                                         committed: string, more: string)
    ensures Feed(rules, Scan(rules, text, protocol, errors, committed), more)
            == Scan(rules, text + more, protocol, errors, committed)
    decreases |text|
  {
    var n := Newline(text);
    if n < |text| {
      NewlineStays(text, more);
      match Judge(rules, text[..n], protocol, errors)
      case Refuse =>
      case Drop => FeedAfterScan(rules, text[n + 1..], protocol, errors + 1, committed, more);
      case Forward(request) =>
        FeedAfterScan(rules, text[n + 1..], RecordRequest(protocol, request), 0, committed + text[..n + 1], more);
    } else if |text| > rules.maxLineBytes {
      OverlongStaysRefused(rules, text, protocol, errors, committed, more);
    }
  }

  /** Feeding two pieces is feeding their concatenation. */
  lemma FeedConcat(rules: Rules, progress: Progress, first: string, second: string)
    ensures Feed(rules, Feed(rules, progress, first), second) == Feed(rules, progress, first + second)
  {
    if progress.Live? {
      FeedAfterScan(rules, progress.tail + first, progress.protocol, progress.errors, progress.committed, second);
      assert progress.tail + first + second == progress.tail + (first + second);
    }
  }

  /** Chunk independence: however the stream is cut, the same bytes are forwarded, the same tail is kept, and the
      session is refused after the same forwarded bytes. */
  lemma {:induction false} ChunkIndependence(rules: Rules, chunks: seq<string>)
    ensures FeedAll(rules, START, chunks) == Feed(rules, START, Concat(chunks))
  {
    if chunks != [] {
      var init := chunks[..|chunks| - 1];
      ChunkIndependence(rules, init);
      FeedConcat(rules, START, Concat(init), chunks[|chunks| - 1]);
    }
  }

  // ---------- scanning in place ----------

  /** The outcome of a scan that has accepted the first `consumed` bytes of `buffer` without committing them yet.
      `folds` only keeps the verifier from unfolding the scan wherever an outlook is carried along. */
  ghost function Outlook(rules: Rules, buffer: string, consumed: nat, protocol: ProtocolState, errors: nat,
                         committed: string, folds: nat := 3): Progress
    requires consumed <= |buffer|
    decreases folds, buffer
  {
    if folds == 0 then Scan(rules, buffer[consumed..], protocol, errors, committed + buffer[..consumed])
    else Outlook(rules, buffer, consumed, protocol, errors, committed, folds - 1)
  }

  lemma {:induction false} OutlookIsScan(rules: Rules, buffer: string, consumed: nat, protocol: ProtocolState,
                                         errors: nat, committed: string, folds: nat)
    requires consumed <= |buffer|
    ensures Outlook(rules, buffer, consumed, protocol, errors, committed, folds)
            == Scan(rules, buffer[consumed..], protocol, errors, committed + buffer[..consumed])
  {
    if folds > 0 {
      OutlookIsScan(rules, buffer, consumed, protocol, errors, committed, folds - 1);
    }
  }

  ghost predicate LineAt(buffer: string, consumed: nat, n: nat) {
    consumed + n < |buffer| && Newline(buffer[consumed..]) == n
  }

  lemma OutlookRefuse(rules: Rules, buffer: string, consumed: nat, n: nat, protocol: ProtocolState, errors: nat,
                      committed: string)
    requires LineAt(buffer, consumed, n) && Judge(rules, buffer[consumed..consumed + n], protocol, errors).Refuse?
    ensures Outlook(rules, buffer, consumed, protocol, errors, committed) == Refused(committed + buffer[..consumed])
  {
    assert buffer[consumed..][..n] == buffer[consumed..consumed + n];
    OutlookIsScan(rules, buffer, consumed, protocol, errors, committed, 3);
  }

  lemma OutlookDrop(rules: Rules, buffer: string, consumed: nat, n: nat, protocol: ProtocolState, errors: nat,
                    committed: string)
    requires LineAt(buffer, consumed, n) && Judge(rules, buffer[consumed..consumed + n], protocol, errors).Drop?
    ensures Outlook(rules, buffer, consumed, protocol, errors, committed)
            == Outlook(rules, buffer[consumed + n + 1..], 0, protocol, errors + 1, committed + buffer[..consumed])
  {
    var text, rest := buffer[consumed..], buffer[consumed + n + 1..];
    assert text[..n] == buffer[consumed..consumed + n] && text[n + 1..] == rest;
    assert rest[0..] == rest && committed + buffer[..consumed] + rest[..0] == committed + buffer[..consumed];
    OutlookIsScan(rules, buffer, consumed, protocol, errors, committed, 3);
    OutlookIsScan(rules, rest, 0, protocol, errors + 1, committed + buffer[..consumed], 3);
  }

  lemma Regroup(committed: string, buffer: string, consumed: nat, n: nat)
    requires consumed + n < |buffer|
    ensures committed + buffer[..consumed] + buffer[consumed..][..n + 1] == committed + buffer[..consumed + n + 1]
  {
    assert buffer[..consumed] + buffer[consumed..][..n + 1] == buffer[..consumed + n + 1];
    assert committed + buffer[..consumed] + buffer[consumed..][..n + 1]
        == committed + (buffer[..consumed] + buffer[consumed..][..n + 1]);
  }

  lemma OutlookForward(rules: Rules, buffer: string, consumed: nat, n: nat, protocol: ProtocolState, errors: nat,
                       committed: string, request: RequestMethod)
    requires LineAt(buffer, consumed, n)
    requires Judge(rules, buffer[consumed..consumed + n], protocol, errors) == Forward(request)
    ensures Outlook(rules, buffer, consumed, protocol, errors, committed)
            == Outlook(rules, buffer, consumed + n + 1, RecordRequest(protocol, request), 0, committed)
  {
    OutlookIsScan(rules, buffer, consumed, protocol, errors, committed, 3);
    OutlookIsScan(rules, buffer, consumed + n + 1, RecordRequest(protocol, request), 0, committed, 3);
    assert buffer[consumed..][..n] == buffer[consumed..consumed + n];
    ScanForward(rules, buffer[consumed..], n, protocol, errors, committed + buffer[..consumed], request);
    Regroup(committed, buffer, consumed, n);
    assert buffer[consumed..][n + 1..] == buffer[consumed + n + 1..];
  }

  lemma ScanForward(rules: Rules, text: string, n: nat, protocol: ProtocolState, errors: nat, committed: string,
                    request: RequestMethod)
    requires n < |text| && Newline(text) == n && Judge(rules, text[..n], protocol, errors) == Forward(request)
    ensures Scan(rules, text, protocol, errors, committed)
            == Scan(rules, text[n + 1..], RecordRequest(protocol, request), 0, committed + text[..n + 1])
  {
  }

  /** How judging the line at `consumed` moves the scan, without changing where it leads. */
  lemma OutlookStep(rules: Rules, buffer: string, consumed: nat, n: nat, protocol: ProtocolState, errors: nat,
                    committed: string)
    requires LineAt(buffer, consumed, n)
    ensures var outlook := Outlook(rules, buffer, consumed, protocol, errors, committed);
            match Judge(rules, buffer[consumed..consumed + n], protocol, errors)
            case Refuse => outlook == Refused(committed + buffer[..consumed])
            case Drop =>
              outlook == Outlook(rules, buffer[consumed + n + 1..], 0, protocol, errors + 1,
                                 committed + buffer[..consumed])
            case Forward(request) =>
              outlook == Outlook(rules, buffer, consumed + n + 1, RecordRequest(protocol, request), 0, committed)
  {
    match Judge(rules, buffer[consumed..consumed + n], protocol, errors)
    case Refuse => OutlookRefuse(rules, buffer, consumed, n, protocol, errors, committed);
    case Drop => OutlookDrop(rules, buffer, consumed, n, protocol, errors, committed);
    case Forward(request) => OutlookForward(rules, buffer, consumed, n, protocol, errors, committed, request);
  }

  /** A scan commits at least what it has accepted. */
  lemma OutlookGrows(rules: Rules, buffer: string, consumed: nat, protocol: ProtocolState, errors: nat,
                     committed: string)
    requires consumed <= |buffer|
    ensures |committed| + consumed <= |Outlook(rules, buffer, consumed, protocol, errors, committed).committed|
  {
    OutlookIsScan(rules, buffer, consumed, protocol, errors, committed, 3);
    TailBounded(rules, buffer[consumed..], protocol, errors, committed + buffer[..consumed]);
  }

  lemma OutlookEnd(rules: Rules, buffer: string, consumed: nat, protocol: ProtocolState, errors: nat,
                   committed: string)
    requires consumed <= |buffer| && Newline(buffer[consumed..]) == |buffer| - consumed
    ensures Outlook(rules, buffer, consumed, protocol, errors, committed)
            == if |buffer| - consumed > rules.maxLineBytes then Refused(committed + buffer[..consumed])
               else Live(buffer[consumed..], protocol, errors, committed + buffer[..consumed])
  {
    OutlookIsScan(rules, buffer, consumed, protocol, errors, committed, 3);
  }

  /** The filter applied to a whole client stream. `folds` is as for `Outlook`. */
  ghost function Filter(rules: Rules, stream: string, folds: nat := 3): Progress
    decreases folds, stream
  {
    if folds == 0 then Feed(rules, START, stream) else Filter(rules, stream, folds - 1)
  }

  lemma {:induction false} FilterIsFeed(rules: Rules, stream: string, folds: nat)
    ensures Filter(rules, stream, folds) == Feed(rules, START, stream)
  {
    if folds > 0 {
      FilterIsFeed(rules, stream, folds - 1);
    }
  }

  /** A stream is refused, or has more than `length` bytes to forward. */
  predicate Beyond(progress: Progress, length: nat) {
    progress.Refused? || length < |progress.committed|
  }

  /** Reading more of the stream continues the scan from the unfinished tail. */
  lemma OutlookStart(rules: Rules, received: string, tail: string, protocol: ProtocolState, errors: nat,
                     committed: string, bytes: string)
    requires Filter(rules, received) == Live(tail, protocol, errors, committed)
    ensures Outlook(rules, tail + bytes, 0, protocol, errors, committed) == Filter(rules, received + bytes)
    ensures |tail| <= rules.maxLineBytes
  {
    FilterIsFeed(rules, received, 3);
    FilterIsFeed(rules, received + bytes, 3);
    FeedConcat(rules, START, received, bytes);
    OutlookIsScan(rules, tail + bytes, 0, protocol, errors, committed, 3);
    assert (tail + bytes)[0..] == tail + bytes && committed + (tail + bytes)[..0] == committed;
    TailBounded(rules, "" + received, INITIAL_STATE, 0, "");
  }

  /** A live stream keeps at most one bounded, newline-free tail. */
  lemma {:induction false} TailBounded(rules: Rules, text: string, protocol: ProtocolState, errors: nat,
                                       committed: string)
    ensures var r := Scan(rules, text, protocol, errors, committed);
            r.Live? ==> |r.tail| <= rules.maxLineBytes && '\n' !in r.tail
    ensures var r := Scan(rules, text, protocol, errors, committed);
            committed <= r.committed
    decreases |text|
  {
    var n := Newline(text);
    if n < |text| {
      match Judge(rules, text[..n], protocol, errors)
      case Refuse =>
      case Drop => TailBounded(rules, text[n + 1..], protocol, errors + 1, committed);
      case Forward(request) =>
        TailBounded(rules, text[n + 1..], RecordRequest(protocol, request), 0, committed + text[..n + 1]);
    }
  }
}
