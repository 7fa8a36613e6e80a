/**
 The request handlers of src/internal/tftp_server_impl.cpp with their loops, retry counters,
 wrapping 16-bit block numbers and byte offsets. Each is proved to perform the run that the
 Session automaton has in its environment.
 */
module Handlers {
  import opened Wire
  import opened Codec
  import opened Negotiation
  import opened Session

  // The state after `failures` failed sendto calls for the datagram being sent.
  function AfterFailures(s: State, failures: nat): State
    requires s.phase.Sending?
  {
    if failures < s.phase.left then s.(phase := s.phase.(left := s.phase.left - failures))
    else s.(phase := Ended(false))
  }

  // One of the sendto calls numbered from `first` up to `end` succeeds.
  ghost predicate SomeSent(env: Env, first: nat, end: nat) {
    exists i: nat :: first <= i < end && env.sendOk(i)
  }

  lemma NextAttempt(role: Role, s: State, failures: nat, ok: bool)
    requires s.phase.Sending? && failures < s.phase.left
    ensures Next(role, AfterFailures(s, failures), if ok then Sent(s.phase.datagram) else Lost(s.phase.datagram))
         == Some(if ok then AfterSent(role, s, s.phase.goal) else AfterFailures(s, failures + 1))
  {
  }

  /** Up to five sendto calls, stopping at the first that takes the whole datagram.
      The ghost parameters are the session this call is part of and the state it is in. */
  method SendPacket(ghost role: Role, ghost start: State, ghost s: State, env: Env, trace: Trace, datagram: Bytes)
    returns (ok: bool, log: Trace)
    requires Agrees(env, trace) && Replay(role, start, trace) == Some(s)
    requires s.phase.Sending? && s.phase.datagram == datagram && s.phase.left >= MAX_RETRIES
    ensures Agrees(env, log)
    ensures Replay(role, start, log)
         == Some(if ok then AfterSent(role, s, s.phase.goal) else AfterFailures(s, MAX_RETRIES))
    ensures Prefix(trace, log) && Attempts(trace) < Attempts(log) <= Attempts(trace) + 5
    ensures ok <==> SomeSent(env, Attempts(trace), Attempts(trace) + 5)
    ensures ok ==> Delivered(log) == Delivered(trace) + [datagram]
    ensures !ok ==> Delivered(log) == Delivered(trace) && Attempts(log) == Attempts(trace) + 5
  {
    hide Next, AfterSent;
    var retries := 0;
    log := trace;
    while retries < MAX_RETRIES
      invariant 0 <= retries <= MAX_RETRIES
      invariant Agrees(env, log) && Replay(role, start, log) == Some(AfterFailures(s, retries))
      invariant Prefix(trace, log) && Attempts(log) == Attempts(trace) + retries && Delivered(log) == Delivered(trace)
      invariant !SomeSent(env, Attempts(trace), Attempts(trace) + retries)
    {
      ok := env.sendOk(Attempts(log));
      var e := if ok then Sent(datagram) else Lost(datagram);
      NextAttempt(role, s, retries, ok);
      log := Then(log, e);
      if ok {
        return;
      }
      retries := retries + 1;
    }
    ok := false;
  }

  lemma ReportEnds(role: Role, s: State)
    ensures AfterSent(role, s, Report) == s.(phase := Ended(false))
  {
  }

  /** Up to five rounds of SendPacket for an ERROR datagram; the session is over either way. */
  method SendError(ghost role: Role, ghost start: State, ghost s: State, env: Env, trace: Trace, datagram: Bytes)
    returns (log: Trace)
    requires Agrees(env, trace) && Replay(role, start, trace) == Some(s)
    requires s.phase == Sending(datagram, ERROR_RETRIES, Report)
    ensures IsRun(role, start, env, log)
    ensures Prefix(trace, log) && Attempts(trace) < Attempts(log) <= Attempts(trace) + 25
    ensures Delivered(log) == if SomeSent(env, Attempts(trace), Attempts(trace) + 25)
                              then Delivered(trace) + [datagram] else Delivered(trace)
  {
    hide Next, Replay, AfterSent, Agrees;
    var sent, retry := false, 0;
    log := trace;
    while retry < MAX_RETRIES && !sent
      invariant 0 <= retry <= MAX_RETRIES && (sent ==> retry > 0) && Agrees(env, log)
      invariant Replay(role, start, log)
             == Some(if sent then s.(phase := Ended(false)) else AfterFailures(s, MAX_RETRIES * retry))
      invariant Prefix(trace, log)
      invariant Attempts(trace) + retry <= Attempts(log) <= Attempts(trace) + MAX_RETRIES * retry
      invariant sent ==>
                  && Delivered(log) == Delivered(trace) + [datagram]
                  && SomeSent(env, Attempts(trace), Attempts(trace) + 25)
      invariant !sent ==>
                  && Attempts(log) == Attempts(trace) + 5 * retry
                  && Delivered(log) == Delivered(trace) && !SomeSent(env, Attempts(trace), Attempts(log))
    {
      ReportEnds(role, AfterFailures(s, MAX_RETRIES * retry));
      ghost var before := log;
      sent, log := SendPacket(role, start, AfterFailures(s, MAX_RETRIES * retry), env, log, datagram);
      PrefixTransitive(trace, before, log);
      retry := retry + 1;
    }
  }

  /** One select and recvfrom; a datagram that cannot be read counts as a failure. */
  method ReceivePacket(env: Env, trace: Trace) returns (packet: Option<Packet>, log: Trace)
    ensures var e := Reception(env, Receptions(trace));
            && log == Then(trace, e)
            && packet == if e.Got? then Received(e.datagram) else None
    ensures Agrees(env, trace) ==> Agrees(env, log)
  {
    var result := env.receive(Receptions(trace));
    match result {
      case None =>
        return None, Then(trace, Silence);
      case Some(datagram) =>
        var buffer := if |datagram| > MAX_PACKET_SIZE then datagram[..MAX_PACKET_SIZE] else datagram;
        return Parse(buffer), Then(trace, Got(datagram));
    }
  }

  lemma ReplayReception(role: Role, start: State, trace: Trace, s: State, e: Event)
    requires Replay(role, start, trace) == Some(s) && s.phase == Listening && (e.Got? || e.Silence?)
    ensures Replay(role, start, Then(trace, e))
         == Some(AfterReceived(role, s, if e.Got? then Received(e.datagram) else None))
  {
  }

  // How the read handler goes on after waiting for an acknowledgement.
  lemma BlockAnswered(file: Bytes, start: State, trace: Trace, acked: nat, e: Event, packet: Option<Packet>)
    requires Replay(Reading(file), start, trace) == Some(State(Listening, acked, [])) && (e.Got? || e.Silence?)
    requires packet == if e.Got? then Received(e.datagram) else None
    ensures packet != Some(Ack(Number(acked + 1))) ==>
              Replay(Reading(file), start, Then(trace, e)) == Some(State(Ended(false), acked, []))
    ensures packet == Some(Ack(Number(acked + 1))) ==>
              (Replay(Reading(file), start, Then(trace, e))
               == Some(if |Block(file, acked + 1)| < MAX_DATA_SIZE then State(Ended(true), acked + 1, [])
                       else Offer(file, acked + 1)))
  {
    ReplayReception(Reading(file), start, trace, State(Listening, acked, []), e);
  }

  // The slice between two offsets is the block the automaton offers.
  lemma BlockAt(file: Bytes, acked: nat, offset: nat, size: nat)
    requires offset == MAX_DATA_SIZE * acked <= |file|
    requires size == if |file| - offset > MAX_DATA_SIZE then MAX_DATA_SIZE else |file| - offset
    ensures file[offset..offset + size] == Block(file, acked + 1)
  {
  }

  /** Serves a file, whatever the network does. */
  method HandleReadRequest(readOk: bool, file: Bytes, maxSize: nat, env: Env) returns (trace: Trace)
    ensures IsRun(Reading(file), ReadStart(readOk, file, maxSize), env, trace)
  {
    hide Parse, Print, Next, Block, Received, ErrorDatagram, AfterReceived, Receptions;
    ghost var role := Reading(file);
    ghost var start := ReadStart(readOk, file, maxSize);
    trace := Begin;
    if !readOk {
      trace := SendError(role, start, start, env, trace, ErrorDatagram(1, "File not found"));
      return;
    }
    if |file| > maxSize {
      trace := SendError(role, start, start, env, trace, ErrorDatagram(3, "File size too large"));
      return;
    }
    var blockNumber: U16 := 1;
    var offset := 0;
    var lastPacket := false;
    ghost var acked := 0;
    while !lastPacket
      invariant offset <= |file| && blockNumber == Number(acked + 1)
      invariant !lastPacket ==> offset == MAX_DATA_SIZE * acked
      invariant Agrees(env, trace)
      invariant !lastPacket ==> Replay(role, start, trace) == Some(Offer(file, acked))
      invariant lastPacket ==> Replay(role, start, trace) == Some(State(Ended(true), acked, []))
      decreases !lastPacket, |file| - offset
    {
      var remaining: nat := |file| - offset;
      var blockSize := if remaining > MAX_DATA_SIZE then MAX_DATA_SIZE else remaining;
      var blockData := file[offset..offset + blockSize];
      BlockAt(file, acked, offset, blockSize);
      var datagram := Print(Data(blockNumber, blockData), []);
      var ok;
      ok, trace := SendPacket(role, start, Offer(file, acked), env, trace, datagram);
      if !ok {
        return;
      }
      ghost var before := trace;
      var packet;
      packet, trace := ReceivePacket(env, trace);
      BlockAnswered(file, start, before, acked, Reception(env, Receptions(before)), packet);
      if packet == None || !packet.value.Ack? || packet.value.block != blockNumber {
        return;
      }
      offset := offset + blockSize;
      blockNumber := (blockNumber + 1) % 0x1_0000;
      acked := acked + 1;
      lastPacket := blockSize < MAX_DATA_SIZE;
    }
  }

  type U64 = n: int | 0 <= n < 0x1_0000_0000_0000_0000

  // The announced size plus one block, in 64-bit arithmetic.
  function AnnouncedLimit(size: U64): nat {
    (size + MAX_DATA_SIZE) % 0x1_0000_0000_0000_0000
  }

  function SizeLimit(options: Options, stoull: Bytes -> Option<U64>): Option<nat> {
    if TSIZE !in options then None else
      match stoull(options[TSIZE])
      case None => None
      case Some(size) => Some(AnnouncedLimit(size))
  }

  function Greeting(options: Options, order: seq<Bytes>, stoi: Stoi): Option<Bytes>
    requires forall k <- order :: k in options
  {
    if options == map[] then None else Some(Oack(options, order, stoi))
  }

  /** Answers the request: an OACK sent once, or ACK 0. */
  method Greet(ghost role: Role, options: Options, order: seq<Bytes>, stoi: Stoi, env: Env)
    returns (ok: bool, trace: Trace)
    requires Enumerates(order, options)
    ensures Agrees(env, trace)
    ensures Replay(role, WriteStart(Greeting(options, order, stoi)), trace)
         == Some(if ok then Idle() else Idle().(phase := Ended(false)))
  {
    ghost var start := WriteStart(Greeting(options, order, stoi));
    if options != map[] {
      var oack := BuildOack(options, order, stoi);
      ok := env.sendOk(0);
      trace := Then(Begin, if ok then Sent(oack) else Lost(oack));
    } else {
      ok, trace := SendPacket(role, start, start, env, Begin, AckDatagram(0));
    }
  }

  // The role of a write session with an optional announced size.
  function Receiver(maxSize: nat, hasExpectedSize: bool, expectedSize: U64): Role {
    Writing(maxSize, if hasExpectedSize then Some(AnnouncedLimit(expectedSize)) else None)
  }

  function Acknowledging(accepted: nat, buffer: Bytes, last: bool): State {
    State(Sending(AckDatagram(accepted), MAX_RETRIES, AckBlock(last)), accepted, buffer)
  }

  // How the write handler goes on after waiting for a block.
  lemma BlockReceived(role: Role, start: State, trace: Trace, accepted: nat, buffer: Bytes,
                      e: Event, packet: Option<Packet>)
    requires role.Writing? && Replay(role, start, trace) == Some(State(Listening, accepted, buffer))
    requires (e.Got? || e.Silence?) && packet == if e.Got? then Received(e.datagram) else None
    ensures packet == None ==>
              Replay(role, start, Then(trace, e)) == Some(State(Ended(false), accepted, buffer))
    ensures packet.Some? && !packet.value.Data? ==>
              (Replay(role, start, Then(trace, e))
               == Some(Refuse(State(Listening, accepted, buffer), 4, "Illegal operation")))
    ensures packet.Some? && packet.value.Data? && packet.value.block != Number(accepted + 1) ==>
              Replay(role, start, Then(trace, e)) == Some(State(Ended(false), accepted, buffer))
    ensures packet.Some? && packet.value.Data? && packet.value.block == Number(accepted + 1) ==>
              && |packet.value.payload| <= MAX_DATA_SIZE
              && (Replay(role, start, Then(trace, e))
                  == Some(Acknowledging(accepted + 1, buffer + packet.value.payload,
                                        |packet.value.payload| < MAX_DATA_SIZE)))
  {
    ReplayReception(role, start, trace, State(Listening, accepted, buffer), e);
  }

  /** The receive loop: it leaves with a complete file, or the session is over. It runs at most
      maxSize / 512 + 1 times because every full block adds 512 bytes. */
  method ReceiveFile(ghost start: State, maxSize: nat, hasExpectedSize: bool, expectedSize: U64, env: Env, trace: Trace)
    returns (complete: bool, ghost accepted: nat, fileData: Bytes, log: Trace)
    requires Agrees(env, trace)
    requires Replay(Receiver(maxSize, hasExpectedSize, expectedSize), start, trace) == Some(Idle())
    ensures !complete ==> IsRun(Receiver(maxSize, hasExpectedSize, expectedSize), start, env, log)
    ensures complete ==> Agrees(env, log) && Replay(Receiver(maxSize, hasExpectedSize, expectedSize), start, log)
                                          == Some(State(Storing, accepted, fileData))
  {
    hide Parse, Print, Received, ErrorDatagram, Next;
    ghost var role := Receiver(maxSize, hasExpectedSize, expectedSize);
    complete, fileData, log, accepted := false, [], trace, 0;
    var expectedBlock: U16 := 1;
    var lastPacket := false;
    while !lastPacket
      invariant expectedBlock == Number(accepted + 1) && |fileData| <= maxSize
      invariant !lastPacket ==> |fileData| == MAX_DATA_SIZE * accepted
      invariant Agrees(env, log)
      invariant Replay(role, start, log)
             == Some(State(if lastPacket then Storing else Listening, accepted, fileData))
      decreases !lastPacket, maxSize - |fileData|
    {
      ghost var before := log;
      var packet;
      packet, log := ReceivePacket(env, log);
      BlockReceived(role, start, before, accepted, fileData, Reception(env, Receptions(before)), packet);
      if packet == None {
        return;
      }
      if !packet.value.Data? {
        log := SendError(role, start, Refuse(State(Listening, accepted, fileData), 4, "Illegal operation"),
                         env, log, ErrorDatagram(4, "Illegal operation"));
        return;
      }
      if packet.value.block != expectedBlock {
        return;
      }
      var blockData := packet.value.payload;
      fileData := fileData + blockData;
      accepted := accepted + 1;
      ghost var s := Acknowledging(accepted, fileData, |blockData| < MAX_DATA_SIZE);
      var ok;
      ok, log := SendPacket(role, start, s, env, log, Print(Ack(expectedBlock), []));
      if !ok {
        return;
      }
      expectedBlock := (expectedBlock + 1) % 0x1_0000;
      lastPacket := |blockData| < MAX_DATA_SIZE;
      if |fileData| > maxSize {
        log := SendError(role, start, Refuse(s, 3, "File size too large"),
                         env, log, ErrorDatagram(3, "File size too large"));
        return;
      }
      if hasExpectedSize && |fileData| > AnnouncedLimit(expectedSize) {
        log := SendError(role, start, Refuse(s, 3, "File size exceeds tsize"),
                         env, log, ErrorDatagram(3, "File size exceeds tsize"));
        return;
      }
    }
    complete := true;
  }

  /** Receives a file, whatever the network does, and hands it to the write callback. */
  method HandleWriteRequest(options: Options, order: seq<Bytes>, stoull: Bytes -> Option<U64>, stoi: Stoi,
                            maxSize: nat, env: Env) returns (trace: Trace)
    requires Enumerates(order, options)
    ensures IsRun(Writing(maxSize, SizeLimit(options, stoull)), WriteStart(Greeting(options, order, stoi)), env, trace)
  {
    hide Parse, Print, Received, ErrorDatagram, AckDatagram, AfterReceived, Oack, BLKSIZE;
    var hasExpectedSize, expectedSize: U64 := false, 0;
    if TSIZE in options {
      var parsed := stoull(options[TSIZE]);
      if parsed.Some? {
        hasExpectedSize, expectedSize := true, parsed.value;
      }
    }
    ghost var role := Receiver(maxSize, hasExpectedSize, expectedSize);
    ghost var start := WriteStart(Greeting(options, order, stoi));
    var ok;
    ok, trace := Greet(role, options, order, stoi, env);
    if !ok {
      return;
    }
    var complete, fileData;
    ghost var accepted;
    complete, accepted, fileData, trace := ReceiveFile(start, maxSize, hasExpectedSize, expectedSize, env, trace);
    if !complete {
      return;
    }
    var success := env.store(fileData);
    trace := Then(trace, Stored(fileData, success));
    if !success {
      trace := SendError(role, start, Refuse(State(Storing, accepted, fileData), 2, "File write failed"), env, trace,
                         ErrorDatagram(2, "File write failed"));
    }
  }
}
