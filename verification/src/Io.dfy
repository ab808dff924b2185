/**
Results of the operating system, OpenSSL and the shared services, as far as the reactor looks at them. Each call
may return any result of its kind.
*/
module Io {
  import opened Options
  import opened ConnectPlan
  import opened Limits

  datatype ReadResult = Data(bytes: string) | WouldBlock | EndOfStream | ReadFailed
  datatype WriteResult = Sent(count: nat) | SendBlocked | SendFailed
  datatype TlsReadResult =
    TlsData(bytes: string) | ReadWantsRead | ReadWantsWrite | TlsClosed | ReadInterrupted | TlsReadFailed
  datatype TlsWriteResult = TlsSent(count: nat) | WriteWantsRead | WriteWantsWrite | WriteInterrupted | TlsWriteFailed
  datatype TlsAcceptResult = Accepted | AcceptWantsRead | AcceptWantsWrite | AcceptInterrupted | AcceptFailed
  datatype ConnectStart = ConnectFailed | InProgress | Connected

  /** A backend as a session uses it. */
  datatype Backend = Backend(name: nat, addresses: seq<Family>, sendProxyV2: bool)

  /** Readiness bits of one epoll event. */
  datatype Events = Events(input: bool, output: bool, readHangup: bool, hangup: bool, error: bool)

  predicate Readable(events: Events) {
    events.input || events.hangup || events.readHangup
  }

  predicate OnlyOutput(events: Events) {
    events == Events(false, true, false, false, false)
  }

  /** Neither an error nor a hangup. */
  predicate Calm(events: Events) {
    !events.error && !events.hangup
  }

  predicate ReadFits(r: ReadResult, capacity: nat) {
    r.Data? ==> 0 < |r.bytes| <= capacity
  }

  predicate TlsReadFits(r: TlsReadResult, capacity: nat) {
    r.TlsData? ==> 0 < |r.bytes| <= capacity
  }

  predicate WriteFits(r: WriteResult, size: nat) {
    r.Sent? ==> 0 < r.count <= size
  }

  predicate TlsWriteFits(r: TlsWriteResult, size: nat) {
    r.TlsSent? ==> 0 < r.count <= size
  }

  method Recv(capacity: nat) returns (r: ReadResult)
    ensures ReadFits(r, capacity)
  {
    assert ReadFits(WouldBlock, capacity);
    r :| ReadFits(r, capacity);
  }

  method Send(bytes: string) returns (r: WriteResult)
    ensures WriteFits(r, |bytes|)
  {
    assert WriteFits(SendBlocked, |bytes|);
    r :| WriteFits(r, |bytes|);
  }

  method TlsReadCall(capacity: nat) returns (r: TlsReadResult)
    ensures TlsReadFits(r, capacity)
  {
    assert TlsReadFits(TlsClosed, capacity);
    r :| TlsReadFits(r, capacity);
  }

  method TlsWriteCall(bytes: string) returns (r: TlsWriteResult)
    ensures TlsWriteFits(r, |bytes|)
  {
    assert TlsWriteFits(TlsWriteFailed, |bytes|);
    r :| TlsWriteFits(r, |bytes|);
  }
}
