/**
 What every run of a handler does, for all environments: which datagrams leave, in which order,
 after which replies, with how many sendto calls, and what reaches the write callback.
 */
module SessionTheorems {
  import opened Wire
  import opened Codec
  import opened Session

  // ----- Downloads

  // The first k DATA datagrams of a file.
  function DataSeq(file: Bytes, k: nat): (ds: seq<Bytes>)
    ensures |ds| == k
  {
    seq(k, i requires 0 <= i < k => DataDatagram(file, i + 1))
  }

  // The first k arrivals are the acknowledgements of blocks 1 to k.
  ghost predicate AcksArrived(trace: Trace, k: nat) {
    k <= |Arrived(trace)| && forall j :: 0 <= j < k ==> Received(Arrived(trace)[j]) == Some(Ack(Number(j + 1)))
  }

  ghost predicate ReaderInv(file: Bytes, trace: Trace, s: State) {
    && s.buffer == [] && AcksArrived(trace, s.blocks)
    && match s.phase
       case Sending(d, left, goal) =>
         && s.blocks < Blocks(file) && 1 <= left <= MAX_RETRIES && goal == AwaitAck
         && d == DataDatagram(file, s.blocks + 1)
         && Delivered(trace) == DataSeq(file, s.blocks) && |Arrived(trace)| == s.blocks
         && Attempts(trace) <= 5 * s.blocks + (MAX_RETRIES - left)
       case Listening =>
         && s.blocks < Blocks(file)
         && Delivered(trace) == DataSeq(file, s.blocks + 1) && |Arrived(trace)| == s.blocks
         && Attempts(trace) <= 5 * (s.blocks + 1)
       case Storing => false
       case Ended(completed) =>
         && |Arrived(trace)| <= s.blocks + 1
         && Attempts(trace) <= 5 * Blocks(file)
         && if completed
            then s.blocks == Blocks(file) && Delivered(trace) == DataSeq(file, Blocks(file))
            else s.blocks < Blocks(file) && (Delivered(trace) == DataSeq(file, s.blocks)
                                             || Delivered(trace) == DataSeq(file, s.blocks + 1))
  }

  lemma LastBlockIsShort(file: Bytes, i: nat)
    requires 1 <= i <= Blocks(file)
    ensures |Block(file, i)| < MAX_DATA_SIZE <==> i == Blocks(file)
  {
  }

  lemma ReaderSends(file: Bytes, past: Trace, s: State, e: Event)
    requires ReaderInv(file, past, s) && s.phase.Sending? && Next(Reading(file), s, e).Some?
    ensures ReaderInv(file, Then(past, e), Next(Reading(file), s, e).value)
  {
    hide Parse, Print, Received, Blocks, DataDatagram;
    assert DataSeq(file, s.blocks + 1) == DataSeq(file, s.blocks) + [DataDatagram(file, s.blocks + 1)];
  }

  lemma ReaderListens(file: Bytes, past: Trace, s: State, e: Event)
    requires ReaderInv(file, past, s) && s.phase.Listening? && Next(Reading(file), s, e).Some?
    ensures ReaderInv(file, Then(past, e), Next(Reading(file), s, e).value)
  {
    hide Parse, Print, Received, Blocks, DataDatagram, DataSeq, Block;
    LastBlockIsShort(file, s.blocks + 1);
  }

  lemma {:induction false} ReaderInvHolds(file: Bytes, maxSize: nat, trace: Trace)
    requires |file| <= maxSize && Replay(Reading(file), ReadStart(true, file, maxSize), trace).Some?
    ensures ReaderInv(file, trace, Replay(Reading(file), ReadStart(true, file, maxSize), trace).value)
  {
    hide Parse, Print, ErrorDatagram, Next;
    match trace
    case Begin =>
    case Then(past, e) =>
      ReaderInvHolds(file, maxSize, past);
      var s := Replay(Reading(file), ReadStart(true, file, maxSize), past).value;
      match s.phase
      case Sending(_, _, _) => ReaderSends(file, past, s, e);
      case Listening => ReaderListens(file, past, s, e);
      case Storing => assert false;
      case Ended(_) => EndedIsFinal(Reading(file), s, e);
  }

  /** Every partial or finished run of a download: the datagrams that left are the blocks of the
      file in order, each once, never more than one ahead of the acknowledgements; a completed
      run sent them all; and there are at most five sendto calls per block. */
  lemma ReadTrace(file: Bytes, maxSize: nat, trace: Trace)
    requires |file| <= maxSize && Replay(Reading(file), ReadStart(true, file, maxSize), trace).Some?
    ensures var s := Replay(Reading(file), ReadStart(true, file, maxSize), trace).value;
            var sent := |Delivered(trace)|;
            && s.blocks <= sent <= Blocks(file) && sent <= s.blocks + 1
            && Delivered(trace) == DataSeq(file, sent)
            && AcksArrived(trace, s.blocks)
            && (s.phase == Ended(true) ==> s.blocks == sent == Blocks(file))
            && Attempts(trace) <= 5 * Blocks(file)
  {
    ReaderInvHolds(file, maxSize, trace);
  }

  /** A block leaves only after every earlier block has been acknowledged, in order. */
  lemma AckPrecedesBlock(file: Bytes, maxSize: nat, past: Trace, datagram: Bytes)
    requires |file| <= maxSize
    requires Replay(Reading(file), ReadStart(true, file, maxSize), Then(past, Sent(datagram))).Some?
    ensures datagram == DataDatagram(file, |Delivered(past)| + 1)
    ensures |Arrived(past)| == |Delivered(past)| && AcksArrived(past, |Delivered(past)|)
  {
    ReaderInvHolds(file, maxSize, past);
  }

  // The blocks put end to end.
  function Joined(file: Bytes, k: nat): Bytes {
    if k == 0 then [] else Joined(file, k - 1) + Block(file, k)
  }

  /** What a complete download carries is the file. */
  lemma {:induction false} BlocksJoin(file: Bytes, k: nat)
    requires k <= Blocks(file)
    ensures Joined(file, k) == file[..Min(MAX_DATA_SIZE * k, |file|)]
  {
    if k > 0 {
      BlocksJoin(file, k - 1);
    }
  }

  // ----- Uploads

  function Payload(datagram: Bytes): Bytes {
    match Received(datagram)
    case Some(Data(_, payload)) => payload
    case _ => []
  }

  function Payloads(ds: seq<Bytes>): Bytes {
    if ds == [] then [] else Payloads(ds[..|ds| - 1]) + Payload(ds[|ds| - 1])
  }

  // The first r arrivals are DATA blocks 1 to r; all but the last of them are full.
  ghost predicate BlocksArrived(trace: Trace, r: nat) {
    && r <= |Arrived(trace)|
    && (forall j :: 0 <= j < r ==> Received(Arrived(trace)[j]) == Some(Data(Number(j + 1), Payload(Arrived(trace)[j]))))
    && (forall j :: 0 <= j < r - 1 ==> |Payload(Arrived(trace)[j])| == MAX_DATA_SIZE)
  }

  // The greeting and the acknowledgements of r blocks.
  function AckSeq(greeting: Bytes, r: nat): (ds: seq<Bytes>)
    ensures |ds| == r + 1
  {
    [greeting] + seq(r, i requires 0 <= i < r => AckDatagram(i + 1))
  }

  function MaxBlocks(maxSize: nat): nat {
    maxSize / MAX_DATA_SIZE + 1
  }

  predicate IsError(datagram: Bytes) {
    |datagram| >= 2 && FromBe16(datagram) == 5
  }

  // What the write callback has seen so far: nothing, or the buffer once, complete and within limits.
  ghost predicate WritesOk(role: Role, trace: Trace, s: State) {
    || Writes(trace) == []
    || (Writes(trace) == [s.buffer] && |s.buffer| < MAX_DATA_SIZE * s.blocks && !TooLarge(role, |s.buffer|))
  }

  ghost predicate WriterInv(role: Role, greeting: Bytes, trace: Trace, s: State) {
    && role.Writing?
    && s.blocks <= MaxBlocks(role.maxSize)
    && BlocksArrived(trace, s.blocks)
    && s.buffer == Payloads(Arrived(trace)[..s.blocks])
    && match s.phase
       case Sending(d, left, BeginReceiving) =>
         && d == greeting && 1 <= left && s.blocks == 0 && s.buffer == []
         && Delivered(trace) == [] && Writes(trace) == [] && Arrived(trace) == []
         && Attempts(trace) + left <= MAX_RETRIES
       case Listening =>
         && |s.buffer| == MAX_DATA_SIZE * s.blocks <= role.maxSize && |Arrived(trace)| == s.blocks
         && (s.blocks > 0 ==> |Payload(Arrived(trace)[s.blocks - 1])| == MAX_DATA_SIZE)
         && Delivered(trace) == AckSeq(greeting, s.blocks) && Writes(trace) == []
         && Attempts(trace) <= 5 * (s.blocks + 1)
       case Sending(d, left, AckBlock(last)) =>
         && d == AckDatagram(s.blocks) && 1 <= left <= MAX_RETRIES && 1 <= s.blocks == |Arrived(trace)|
         && MAX_DATA_SIZE * (s.blocks - 1) <= |s.buffer| <= MAX_DATA_SIZE * s.blocks
         && (last <==> |s.buffer| < MAX_DATA_SIZE * s.blocks)
         && |Payload(Arrived(trace)[s.blocks - 1])| == |s.buffer| - MAX_DATA_SIZE * (s.blocks - 1)
         && Delivered(trace) == AckSeq(greeting, s.blocks - 1) && Writes(trace) == []
         && Attempts(trace) <= 5 * s.blocks + (MAX_RETRIES - left)
       case Storing =>
         && |s.buffer| < MAX_DATA_SIZE * s.blocks && !TooLarge(role, |s.buffer|)
         && Delivered(trace) == AckSeq(greeting, s.blocks) && Writes(trace) == []
         && Attempts(trace) <= 5 * (s.blocks + 1)
       case Sending(d, left, Report) =>
         && IsError(d) && 1 <= left
         && Delivered(trace) == AckSeq(greeting, s.blocks) && WritesOk(role, trace, s)
         && Attempts(trace) + left <= 5 * (s.blocks + 1) + ERROR_RETRIES
       case Ended(completed) =>
         && UploadReplies(greeting, s.blocks, Delivered(trace)) && WritesOk(role, trace, s)
         && (completed ==> Delivered(trace) == AckSeq(greeting, s.blocks) && Writes(trace) == [s.buffer])
         && Attempts(trace) <= 5 * (s.blocks + 1) + ERROR_RETRIES
       case _ => false
  }

  // The replies of an upload that has accepted `blocks` blocks: nothing yet, the greeting and the
  // acknowledgements of all of them or all but the last, or all of that and one ERROR.
  ghost predicate UploadReplies(greeting: Bytes, blocks: nat, ds: seq<Bytes>) {
    || (blocks == 0 && ds == [])
    || (blocks > 0 && ds == AckSeq(greeting, blocks - 1))
    || ds == AckSeq(greeting, blocks)
    || (ds != [] && ds[..|ds| - 1] == AckSeq(greeting, blocks) && IsError(ds[|ds| - 1]))
  }

  lemma PayloadsAppend(ds: seq<Bytes>, d: Bytes)
    ensures Payloads(ds + [d]) == Payloads(ds) + Payload(d)
  {
    assert (ds + [d])[..|ds|] == ds;
  }

  lemma ErrorsAreErrors()
    ensures forall code, message :: IsError(ErrorDatagram(code, message))
  {
  }

  // Later arrivals do not disturb the accepted ones.
  lemma ArrivalsStay(past: Trace, e: Event, r: nat)
    requires BlocksArrived(past, r)
    ensures BlocksArrived(Then(past, e), r) && Arrived(Then(past, e))[..r] == Arrived(past)[..r]
  {
    hide Parse, Received;
  }

  lemma BlockAccepted(past: Trace, datagram: Bytes, r: nat)
    requires BlocksArrived(past, r) && |Arrived(past)| == r
    requires r > 0 ==> |Payload(Arrived(past)[r - 1])| == MAX_DATA_SIZE
    requires Received(datagram).Some? && Received(datagram).value.Data?
    requires Received(datagram).value.block == Number(r + 1)
    ensures BlocksArrived(Then(past, Got(datagram)), r + 1)
    ensures Arrived(Then(past, Got(datagram)))[r] == datagram
    ensures Payloads(Arrived(Then(past, Got(datagram)))[..r + 1])
         == Payloads(Arrived(past)[..r]) + Received(datagram).value.payload
  {
    hide Parse, Received;
    var arrived := Arrived(Then(past, Got(datagram)));
    assert Arrived(past)[..r] == Arrived(past);
    assert arrived[..r + 1] == Arrived(past) + [datagram];
    PayloadsAppend(Arrived(past), datagram);
    assert Payload(datagram) == Received(datagram).value.payload;
  }

  lemma PayloadCapped(datagram: Bytes)
    requires Received(datagram).Some? && Received(datagram).value.Data?
    ensures |Received(datagram).value.payload| <= MAX_DATA_SIZE
  {
  }

  lemma WriterGreets(role: Role, greeting: Bytes, past: Trace, s: State, e: Event)
    requires WriterInv(role, greeting, past, s) && s.phase.Sending? && s.phase.goal.BeginReceiving?
    requires Next(role, s, e).Some?
    ensures WriterInv(role, greeting, Then(past, e), Next(role, s, e).value)
  {
    hide Parse, Print, Received, Payloads, ErrorDatagram, BlocksArrived;
    ArrivalsStay(past, e, 0);
    assert AckSeq(greeting, 0) == [greeting];
  }

  lemma WriterAcks(role: Role, greeting: Bytes, past: Trace, s: State, e: Event)
    requires WriterInv(role, greeting, past, s) && s.phase.Sending? && s.phase.goal.AckBlock?
    requires Next(role, s, e).Some?
    ensures WriterInv(role, greeting, Then(past, e), Next(role, s, e).value)
  {
    hide Parse, Print, Received, Payloads, ErrorDatagram, BlocksArrived, AckSeq;
    ErrorsAreErrors();
    ArrivalsStay(past, e, s.blocks);
    AckSeqGrows(greeting, s.blocks);
  }

  lemma AckSeqGrows(greeting: Bytes, r: nat)
    requires r > 0
    ensures AckSeq(greeting, r) == AckSeq(greeting, r - 1) + [AckDatagram(r)]
  {
    hide Print;
  }

  lemma WriterReports(role: Role, greeting: Bytes, past: Trace, s: State, e: Event)
    requires WriterInv(role, greeting, past, s) && s.phase.Sending? && s.phase.goal.Report?
    requires Next(role, s, e).Some?
    ensures WriterInv(role, greeting, Then(past, e), Next(role, s, e).value)
  {
    hide Parse, Print, Received, Payloads, ErrorDatagram, BlocksArrived, AckSeq;
    ArrivalsStay(past, e, s.blocks);
    var ds := AckSeq(greeting, s.blocks);
    assert (ds + [s.phase.datagram])[..|ds|] == ds;
  }

  lemma WriterListens(role: Role, greeting: Bytes, past: Trace, s: State, e: Event)
    requires WriterInv(role, greeting, past, s) && s.phase.Listening? && Next(role, s, e).Some?
    ensures WriterInv(role, greeting, Then(past, e), Next(role, s, e).value)
  {
    hide Parse, Print, Received, Payloads, ErrorDatagram, BlocksArrived, AckSeq;
    ErrorsAreErrors();
    ArrivalsStay(past, e, s.blocks);
    if e.Got? && Received(e.datagram).Some? && Received(e.datagram).value.Data? {
      PayloadCapped(e.datagram);
      if Received(e.datagram).value.block == Number(s.blocks + 1) {
        BlockAccepted(past, e.datagram, s.blocks);
      }
    }
  }

  lemma WriterStores(role: Role, greeting: Bytes, past: Trace, s: State, e: Event)
    requires WriterInv(role, greeting, past, s) && s.phase.Storing? && Next(role, s, e).Some?
    ensures WriterInv(role, greeting, Then(past, e), Next(role, s, e).value)
  {
    hide Parse, Print, Received, Payloads, ErrorDatagram;
    ErrorsAreErrors();
  }

  lemma EndedIsFinal(role: Role, s: State, e: Event)
    requires s.phase.Ended?
    ensures Next(role, s, e) == None
  {
  }

  lemma {:induction false} WriterInvHolds(role: Role, oack: Option<Bytes>, trace: Trace)
    requires role.Writing? && Replay(role, WriteStart(oack), trace).Some?
    ensures WriterInv(role, WriteStart(oack).phase.datagram, trace, Replay(role, WriteStart(oack), trace).value)
  {
    hide Parse, Print, Next, Received;
    match trace
    case Begin =>
    case Then(past, e) =>
      WriterInvHolds(role, oack, past);
      var s := Replay(role, WriteStart(oack), past).value;
      var greeting := WriteStart(oack).phase.datagram;
      match s.phase
      case Sending(_, _, BeginReceiving) => WriterGreets(role, greeting, past, s, e);
      case Sending(_, _, AckBlock(_)) => WriterAcks(role, greeting, past, s, e);
      case Sending(_, _, Report) => WriterReports(role, greeting, past, s, e);
      case Sending(_, _, AwaitAck) => assert false;
      case Listening => WriterListens(role, greeting, past, s, e);
      case Storing => WriterStores(role, greeting, past, s, e);
      case Ended(_) => EndedIsFinal(role, s, e);
  }

  /** Every partial or finished run of an upload, in every environment: at most
      maxSize / 512 + 1 blocks are accepted; the buffer is what they carried, in order; the
      replies are one greeting, the acknowledgements of the accepted blocks, the last one perhaps
      still missing, and at most one final ERROR, none in a completed run; the write callback runs
      at most once, after a short block, on the whole buffer within both size limits; and the
      number of sendto calls is bounded. */
  lemma WriteTrace(role: Role, oack: Option<Bytes>, trace: Trace)
    requires role.Writing? && Replay(role, WriteStart(oack), trace).Some?
    ensures var s := Replay(role, WriteStart(oack), trace).value;
            && s.blocks <= MaxBlocks(role.maxSize)
            && BlocksArrived(trace, s.blocks) && s.buffer == Payloads(Arrived(trace)[..s.blocks])
            && UploadReplies(WriteStart(oack).phase.datagram, s.blocks, Delivered(trace))
            && WritesOk(role, trace, s)
            && (s.phase == Ended(true) ==>
                  && Delivered(trace) == AckSeq(WriteStart(oack).phase.datagram, s.blocks)
                  && Writes(trace) == [s.buffer])
            && Attempts(trace) <= 5 * (MaxBlocks(role.maxSize) + 1) + ERROR_RETRIES
  {
    hide Parse, Print, Received, ErrorDatagram, BlocksArrived, AckSeq, Payloads;
    WriterInvHolds(role, oack, trace);
  }

  /** Whatever leaves is the greeting, before anything arrived; or ACK i, when exactly blocks 1 to i
      have arrived and ACKs 1 to i - 1 have left; or an ERROR. */
  lemma BlockPrecedesAck(role: Role, oack: Option<Bytes>, past: Trace, datagram: Bytes)
    requires role.Writing? && Replay(role, WriteStart(oack), Then(past, Sent(datagram))).Some?
    ensures |Delivered(past)| == 0 ==> datagram == WriteStart(oack).phase.datagram && Arrived(past) == []
    ensures |Delivered(past)| > 0 ==>
              var i := |Delivered(past)|;
              || (&& datagram == AckDatagram(i) && Delivered(past) == AckSeq(WriteStart(oack).phase.datagram, i - 1)
                  && |Arrived(past)| == i && BlocksArrived(past, i))
              || IsError(datagram)
  {
    hide Parse, Print, Received, ErrorDatagram, BlocksArrived, Payloads;
    WriterInvHolds(role, oack, past);
  }

  /** At every head of the receive loop the buffer holds exactly the full blocks accepted so far
      and fits the limit. */
  lemma WriteLoopHead(role: Role, oack: Option<Bytes>, trace: Trace)
    requires role.Writing? && Replay(role, WriteStart(oack), trace).Some?
    requires Replay(role, WriteStart(oack), trace).value.phase.Listening?
    ensures var s := Replay(role, WriteStart(oack), trace).value;
            && |s.buffer| == MAX_DATA_SIZE * s.blocks <= role.maxSize
            && Number(s.blocks + 1) == (|s.buffer| / MAX_DATA_SIZE + 1) % 0x1_0000
            && Delivered(trace) == AckSeq(WriteStart(oack).phase.datagram, s.blocks)
  {
    hide Next, Received, BlocksArrived, Payloads, AckSeq;
    WriterInvHolds(role, oack, trace);
  }
}
