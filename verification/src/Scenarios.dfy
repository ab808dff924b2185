/**
Two sessions that end badly: one loses bytes for its client after the pool has closed, the other stops moving although
its sockets stay ready. Both start from an ordinary relaying session that meets every invariant, and take the steps of
the session's own handlers.
*/
module Scenarios {
  import opened Options
  import opened Expansion
  import opened Stratum
  import opened Framing
  import opened TokenBuckets
  import opened Limits
  import opened ConnectPlan
  import opened Io
  import opened Workers
  import opened Sessions

  const ACCEPT_ALL: Validator := (line, state) => Verdict.Accepted(Subscribe)

  const LIMITS: LimitsConfig :=
    LimitsConfig(1_000, 100_000, 64, Rate(1.0, 64), Rate(1.0, 1_000), 1, 1, 1, 1)

  /** One accepted line is received. */
  lemma FirstLine(rules: Rules)
    requires rules == Rules(LIMITS.maxLineBytes, ACCEPT_ALL)
    ensures Filter(rules, "x\n") == Live("", RecordRequest(INITIAL_STATE, Subscribe), 0, "x\n")
  {
    FilterIsFeed(rules, "x\n", 3);
    var text := "x\n";
    assert "" + text == text;
    NewlineUnique(text, 1);
    assert text[2..] == "" && text[..2] == text && "" + text == text;
    NewlineUnique("", 0);
  }

  lemma FirstCharge()
    ensures var traffic := Consume(UNUSED_TRAFFIC, 1, LIMITS.messageRate, LIMITS.byteRate, 1, 2).0;
            Metered(UNUSED_TRAFFIC, LIMITS.messageRate, LIMITS.byteRate, [Read(1, 1, 2)], traffic, 1, 2)
  {
    var read := Read(1, 1, 2);
    MeteredNext(UNUSED_TRAFFIC, LIMITS.messageRate, LIMITS.byteRate, [], UNUSED_TRAFFIC, 0, 0, read);
    assert [] + [read] == [read];
  }

  /** An ordinary session that relays, with bytes queued in both directions. */
  ghost predicate Ordinary(s: Session, w: Worker)
    reads s, s.toUpstream, s.toClient, w, w.stats, w.wheel
  {
    && s.Running(w) && s.Paced() && s.Linked()
    && s.stage == Relay && s.upstreamOpen && s.tlsOperation == NoOperation && !s.clientReadClosed
    && s.toUpstream.Size() > 0 && s.toClient.Size() > 0
  }

  /** There are such sessions, plaintext and TLS. */
  method Relaying(w: Worker, tls: bool) returns (s: Session)
    requires w.Valid() && w.stats.held >= 3
    modifies w`sourceSequence, w.wheel
    ensures s.tls == tls && fresh(s) && fresh(s.toUpstream) && fresh(s.toClient) && Ordinary(s, w)
  {
    s := Prepared(w, tls);
    Launch(s, w);
  }

  method Launch(s: Session, w: Worker)
    requires Ready(s) && w.Valid() && w.stats.held >= 3 && s.lastActivity <= w.clock
    modifies s, s.toUpstream, s.toClient, w.wheel
    ensures Ordinary(s, w)
  {
    Fill(s);
    Start(s, w);
  }

  ghost predicate Ready(s: Session)
    reads s, s.toUpstream, s.toClient
  {
    && Planning(s) && Idle(s) && s.Buffers() && s.toUpstream.Contents() == "" && s.toClient.Contents() == ""
    && Unpaused(s)
  }

  ghost predicate Unpaused(s: Session)
    reads s
  {
    !s.clientReadPaused && !s.upstreamReadPaused && s.Switching()
  }

  method Assigned(w: Worker, tls: bool) returns (s: Session)
    ensures fresh(s) && fresh(s.toUpstream) && fresh(s.toClient) && s.tls == tls && s.lastActivity == w.clock
    ensures s.limits == LIMITS && s.validate == ACCEPT_ALL && s.header == ""
    ensures s.backend == Some(Backend(0, [2], false)) && Idle(s) && Unpaused(s)
    ensures s.Buffers() && s.toUpstream.Contents() == "" && s.toClient.Contents() == ""
  {
    s := new Session(0, tls, LIMITS, ACCEPT_ALL, [], "", w.clock);
    s.Open();
    s.backend := Some(Backend(0, [2], false));
  }

  method Prepared(w: Worker, tls: bool) returns (s: Session)
    modifies w`sourceSequence
    ensures fresh(s) && fresh(s.toUpstream) && fresh(s.toClient) && Ready(s) && s.tls == tls
    ensures s.lastActivity == w.clock
  {
    s := Assigned(w, tls);
    s.StartWalk(w, 0);
  }

  method Start(s: Session, w: Worker)
    requires s.Valid() && w.Valid() && s.Size() <= w.stats.held && s.lastActivity <= w.clock
    modifies s`timeoutGeneration, s`armedFor, s`opening, w.wheel
    ensures s.Running(w)
    ensures old(Unpaused(s)) ==> Unpaused(s)
  {
    s.ScheduleTimeout(w);
    s.OpenBooks(w);
  }

  ghost predicate Planning(s: Session)
    reads s
  {
    && s.limits == LIMITS && s.validate == ACCEPT_ALL && s.header == ""
    && s.backend == Some(Backend(0, [2], false)) && s.Planned()
  }

  ghost predicate Idle(s: Session)
    reads s
  {
    s.tlsOperation == NoOperation && !s.clientReadClosed && s.clientWriteRetryBytes == 0 && s.unfinishedWrite.None?
  }

  /** The session has received one line and queued it for the pool, and one byte of the pool for the client. */
  method Fill(s: Session)
    requires Planning(s) && Idle(s) && s.Buffers()
    requires s.toUpstream.Contents() == "" && s.toClient.Contents() == ""
    modifies s`stage, s`backendCounted, s`upstreamOpen, s`lineBuffer, s`protocol, s`consecutiveErrors, s`received
    modifies s`committed, s`sentUpstream, s`fromPool, s`sentClient, s`traffic, s`charges, s.toUpstream, s.toClient
    ensures s.Valid() && s.stage == Relay && s.upstreamOpen && s.lineBuffer == ""
    ensures s.toUpstream.Size() == 2 && s.toClient.Size() == 1
    ensures old(Unpaused(s)) ==> Unpaused(s)
  {
    s.toUpstream.Append("x\n");
    s.toClient.Append("y");
    FillHistory(s);
    Filled(s);
  }

  ghost predicate History(s: Session)
    reads s
  {
    && s.stage == Relay && s.backendCounted && s.upstreamOpen
    && s.lineBuffer == "" && s.protocol == RecordRequest(INITIAL_STATE, Subscribe) && s.consecutiveErrors == 0
    && s.received == "x\n" && s.committed == "x\n" && s.sentUpstream == "" && s.fromPool == "y" && s.sentClient == ""
    && s.traffic == Consume(UNUSED_TRAFFIC, 1, LIMITS.messageRate, LIMITS.byteRate, 1, 2).0
    && s.charges == [Read(1, 1, 2)]
  }

  method FillHistory(s: Session)
    modifies s`stage, s`backendCounted, s`upstreamOpen, s`lineBuffer, s`protocol, s`consecutiveErrors, s`received
    modifies s`committed, s`sentUpstream, s`fromPool, s`sentClient, s`traffic, s`charges
    ensures History(s)
  {
    s.stage, s.backendCounted, s.upstreamOpen := Relay, true, true;
    s.lineBuffer, s.protocol, s.consecutiveErrors := "", RecordRequest(INITIAL_STATE, Subscribe), 0;
    s.received, s.committed, s.sentUpstream, s.fromPool, s.sentClient := "x\n", "x\n", "", "y", "";
    s.traffic := Consume(UNUSED_TRAFFIC, 1, LIMITS.messageRate, LIMITS.byteRate, 1, 2).0;
    s.charges := [Read(1, 1, 2)];
  }

  lemma Filled(s: Session)
    requires Planning(s) && Idle(s) && History(s) && s.Buffers()
    requires s.toUpstream.Contents() == "x\n" && s.toClient.Contents() == "y"
    ensures s.Valid()
  {
    FirstLine(s.LineRules());
    FirstCharge();
    FilledStreams(s);
    s.Seal();
  }

  lemma FilledStreams(s: Session)
    requires Planning(s) && History(s) && s.Buffers()
    requires s.toUpstream.Contents() == "x\n" && s.toClient.Contents() == "y"
    ensures s.Streams()
  {
    assert "" + "x\n" == "x\n" && "" + "y" == "y";
  }

  /** The pool closes; what its socket does not take any more stays queued. */
  method LosePool(s: Session, w: Worker)
    requires s.Running(w) && s.Bounded() && s.Linked() && s.Switching() && s.stage == Relay && s.toClient.Size() > 0
    modifies s`sentUpstream, s`upstreamOpen, s`upstreamReadPaused, s`upstreamReadClosed, s`sharedPressurePaused
    modifies s`samples, s`clientQueueStalled, s`upstreamQueueStalled, s`clientReadPaused, s`stallDeadline
    modifies s`timeoutGeneration, s`armedFor, s.toUpstream, w`clock, w.stats, w.wheel
    ensures s.Running(w) && s.Paced() && s.Linked() && s.Poolless()
  {
    var outcome := s.PoolClosed(w);
    var registered := s.UpdateInterests(w);
  }

  /** The pool of such a session is gone. */
  method PoolGone(w: Worker, tls: bool) returns (s: Session)
    requires w.Valid() && w.stats.held >= 3
    modifies w`sourceSequence, w.wheel
    ensures fresh(s) && fresh(s.toUpstream) && fresh(s.toClient) && s.tls == tls
    ensures s.Running(w) && s.Paced() && s.Linked() && s.Delivering() && s.toUpstream.Size() == 2
  {
    s := Prepared(w, tls);
    LaunchPoolless(s, w);
  }

  method Detach(s: Session)
    requires s.Valid() && s.stage == Relay
    modifies s`upstreamOpen, s`upstreamReadClosed
    ensures s.Valid() && s.Poolless()
    ensures old(Unpaused(s)) ==> Unpaused(s)
  {
    s.RelayPart();
    s.upstreamOpen, s.upstreamReadClosed := false, true;
    s.SealRelay();
  }

  method LaunchPoolless(s: Session, w: Worker)
    requires Ready(s) && w.Valid() && w.stats.held >= 3 && s.lastActivity <= w.clock
    modifies s, s.toUpstream, s.toClient, w.wheel
    ensures s.Running(w) && s.Paced() && s.Linked() && s.Delivering() && s.toUpstream.Size() == 2
  {
    Fill(s);
    Detach(s);
    Start(s, w);
  }

  /** The session goes on without its pool, for the client's bytes; but when bytes for the pool are left as well, it is
      given up as soon as the client can take its own, with all of them left. */
  method LosesClientBytes(s: Session, w: Worker) returns (outcome: Outcome)
    requires s.Running(w) && s.Paced() && s.Linked() && s.Delivering() && s.toUpstream.Size() > 0
    modifies s, s.toUpstream, s.toClient, w, w.stats, w.wheel
    ensures s.Streams() && s.Truncated(outcome) && s.sentClient == old(s.sentClient)
  {
    outcome := s.ClientReady(w, Events(false, true, false, false, false));
  }

  /** Such a session, plaintext or TLS, and its end. */
  method TruncatedSession(w: Worker, tls: bool) returns (s: Session, outcome: Outcome)
    requires w.Valid() && w.stats.held >= 3
    modifies w, w.stats, w.wheel
    ensures fresh(s) && s.tls == tls && s.Streams() && s.Truncated(outcome)
  {
    s := PoolGone(w, tls);
    outcome := LosesClientBytes(s, w);
  }

  /** When the pool closes on a session whose write is starved, the client's bytes are left and the client could take
      output, but no socket is watched for anything on which the session acts. */
  method StopsMoving(s: Session, w: Worker)
    requires s.Running(w) && s.Bounded() && s.Linked() && s.Switching()
    requires s.stage == Relay && s.WriteStarved() && s.toClient.Size() > 0
    modifies s, s.toUpstream, s.toClient, w, w.stats, w.wheel
    ensures s.Running(w) && s.Paced() && s.Linked() && s.toClient.Size() > 0 && s.ClientInterest().writable
    ensures s.Wedged() && !s.ClientWatched() && !s.PoolWatched()
  {
    LosePool(s, w);
    s.Progress();
  }

  /** There are such sessions. */
  method WedgedSession(w: Worker) returns (s: Session)
    requires w.Valid() && w.stats.held >= 3
    modifies w`sourceSequence, w.wheel
    ensures fresh(s) && s.Running(w) && s.Paced() && s.Linked()
    ensures s.toClient.Size() > 0 && s.ClientInterest().writable
    ensures s.Wedged() && !s.ClientWatched() && !s.PoolWatched()
  {
    s := Prepared(w, true);
    LaunchWedged(s, w);
    s.Progress();
  }

  method Starve(s: Session)
    requires s.Valid() && s.stage == Relay && s.tls && s.toClient.Size() > 0 && s.lineBuffer == ""
    modifies s`clientReadClosed, s`tlsOperation, s`tlsDirection, s`clientWriteRetryBytes, s`unfinishedWrite
    ensures s.Valid() && s.WriteStarved() && s.tlsOperation == WriteOperation
    ensures old(Unpaused(s)) ==> Unpaused(s)
  {
    s.RelayPart();
    LeaveWriting(s);
    s.SealRelay();
  }

  method LeaveWriting(s: Session)
    requires s.toClient.Valid() && s.toClient.Size() > 0
    modifies s`clientReadClosed, s`tlsOperation, s`tlsDirection, s`clientWriteRetryBytes, s`unfinishedWrite
    ensures s.clientReadClosed && s.tlsOperation == WriteOperation && s.tlsDirection == Inbound
    ensures s.clientWriteRetryBytes == 1 && s.unfinishedWrite == Some(s.toClient.Contents()[..1])
  {
    s.clientReadClosed, s.tlsOperation, s.tlsDirection := true, WriteOperation, Inbound;
    s.clientWriteRetryBytes, s.unfinishedWrite := 1, Some(s.toClient.Front(1));
  }

  method LaunchWedged(s: Session, w: Worker)
    requires Ready(s) && s.tls && w.Valid() && w.stats.held >= 3 && s.lastActivity <= w.clock
    modifies s, s.toUpstream, s.toClient, w.wheel
    ensures s.Running(w) && s.Paced() && s.Linked() && s.toClient.Size() > 0
    ensures s.Wedged() && s.ClientInterest().writable
  {
    Fill(s);
    Detach(s);
    Starve(s);
    Start(s, w);
  }

  /** How an ordinary TLS session gets there: its client closes between two lines, and a write to it asks for input. */
  method CloseThenStarve(s: Session, w: Worker) returns (starved: bool)
    requires Ordinary(s, w) && s.tls
    modifies s, s.toUpstream, s.toClient, w, w.stats, w.wheel
    ensures starved ==> s.Running(w) && s.Paced() && s.Wedged() && !s.ClientWatched() && !s.PoolWatched()
  {
    starved := CloseClient(s, w);
    if starved {
      starved := StarveWrite(s, w);
    }
    if starved {
      StopsMoving(s, w);
    }
  }

  method CloseClient(s: Session, w: Worker) returns (closed: bool)
    requires Ordinary(s, w) && s.tls
    modifies s`tlsOperation, s`tlsDirection, s`clientReadClosed, s`faults
    ensures closed ==> s.Running(w) && s.Bounded() && s.clientReadClosed && s.tlsOperation == NoOperation
  {
    s.FramePart();
    var r := s.ReceiveClient(w);
    closed := s.clientReadClosed && s.lineBuffer == "" && s.tlsOperation == NoOperation;
    if closed {
      s.RelayPart();
    }
  }

  method StarveWrite(s: Session, w: Worker) returns (starved: bool)
    requires s.Running(w) && s.Bounded() && s.stage == Relay && s.upstreamOpen && s.tlsOperation == NoOperation
    requires s.clientReadClosed && s.Switching()
    modifies s, s.toClient, w`clock, w.stats
    ensures s.Running(w) && s.Bounded() && s.stage == Relay && s.upstreamOpen && s.clientReadClosed && s.Switching()
    ensures starved ==> s.WriteStarved() && s.toClient.Size() > 0
  {
    var outcome := s.SendToClient(w);
    s.RelayPart();
    starved := s.tlsOperation == WriteOperation && s.tlsDirection == Inbound;
  }

  /** An output event of a session whose write is starved: nothing happens. */
  method Ignores(s: Session, w: Worker) returns (outcome: Outcome)
    requires s.Running(w) && s.Paced() && s.Linked() && s.stage == Relay && s.WriteStarved()
    modifies s, s.toUpstream, s.toClient, w, w.stats, w.wheel
    ensures outcome.Keep? && unchanged(s, s.toUpstream, s.toClient)
  {
    outcome := s.ClientReady(w, Events(false, true, false, false, false));
  }
}
