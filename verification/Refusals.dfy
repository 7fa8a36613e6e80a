/**
 When a session gives up and when it answers with an ERROR: which one, and after what. The
 datagrams are written out as literals.
 */
module Refusals {
  import opened Wire
  import opened Codec
  import opened CodecTheorems
  import opened Acceptance
  import opened Session
  import opened SessionTheorems

  // ----- The datagrams

  // "File not found"
  const FILE_NOT_FOUND_TEXT: Bytes := [70, 105, 108, 101, 32, 110, 111, 116, 32, 102, 111, 117, 110, 100]
  const FILE_NOT_FOUND: Bytes := [0, 5, 0, 1] + FILE_NOT_FOUND_TEXT + [0]

  // "File size too large"
  const FILE_TOO_LARGE_TEXT: Bytes :=
    [70, 105, 108, 101, 32, 115, 105, 122, 101, 32, 116, 111, 111, 32, 108, 97, 114, 103, 101]
  const FILE_TOO_LARGE: Bytes := [0, 5, 0, 3] + FILE_TOO_LARGE_TEXT + [0]

  // "File size exceeds tsize"
  const EXCEEDS_TSIZE_TEXT: Bytes :=
    [70, 105, 108, 101, 32, 115, 105, 122, 101, 32, 101, 120, 99, 101, 101, 100, 115, 32, 116, 115, 105, 122, 101]
  const EXCEEDS_TSIZE: Bytes := [0, 5, 0, 3] + EXCEEDS_TSIZE_TEXT + [0]

  // "File write failed"
  const WRITE_FAILED_TEXT: Bytes := [70, 105, 108, 101, 32, 119, 114, 105, 116, 101, 32, 102, 97, 105, 108, 101, 100]
  const WRITE_FAILED: Bytes := [0, 5, 0, 2] + WRITE_FAILED_TEXT + [0]

  // "Illegal operation"
  const ILLEGAL_OPERATION_TEXT: Bytes :=
    [73, 108, 108, 101, 103, 97, 108, 32, 111, 112, 101, 114, 97, 116, 105, 111, 110]
  const ILLEGAL_OPERATION: Bytes := [0, 5, 0, 4] + ILLEGAL_OPERATION_TEXT + [0]

  predicate Plain(message: string) {
    |message| <= 255 && forall i :: 0 <= i < |message| ==> 0 as char < message[i] < 128 as char
  }

  /** An ERROR is read as its code and the characters of its message. */
  lemma ErrorArrives(code: U16, message: string)
    requires code <= 7 && Plain(message)
    ensures Received(ErrorDatagram(code, message))
         == Some(Error(code, seq(|message|, i requires 0 <= i < |message| => message[i] as int)))
  {
    hide Parse;
    var text := seq(|message|, i requires 0 <= i < |message| => message[i] as int);
    assert Ascii(message) == text;
    RoundTrip(Error(code, text), []);
  }

  lemma ErrorBytes(code: U16, message: string, text: Bytes)
    requires code <= 7 && |text| == |message|
    requires forall i :: 0 <= i < |message| ==> message[i] < 128 as char && message[i] as int == text[i]
    ensures ErrorDatagram(code, message) == [0, 5, 0, code] + text + [0]
  {
    assert Ascii(message) == text;
  }

  lemma FileNotFoundBytes()
    ensures ErrorDatagram(1, "File not found") == FILE_NOT_FOUND
  {
    ErrorBytes(1, "File not found", FILE_NOT_FOUND_TEXT);
  }

  lemma FileTooLargeBytes()
    ensures ErrorDatagram(3, "File size too large") == FILE_TOO_LARGE
  {
    ErrorBytes(3, "File size too large", FILE_TOO_LARGE_TEXT);
  }

  lemma ExceedsTsizeBytes()
    ensures ErrorDatagram(3, "File size exceeds tsize") == EXCEEDS_TSIZE
  {
    ErrorBytes(3, "File size exceeds tsize", EXCEEDS_TSIZE_TEXT);
  }

  lemma WriteFailedBytes()
    ensures ErrorDatagram(2, "File write failed") == WRITE_FAILED
  {
    ErrorBytes(2, "File write failed", WRITE_FAILED_TEXT);
  }

  lemma IllegalOperationBytes()
    ensures ErrorDatagram(4, "Illegal operation") == ILLEGAL_OPERATION
  {
    ErrorBytes(4, "Illegal operation", ILLEGAL_OPERATION_TEXT);
  }

  lemma ErrorReads(code: U16, text: Bytes)
    requires code <= 7 && |text| <= 255 && 0 !in text
    ensures Received([0, 5, 0, code] + text + [0]) == Some(Error(code, text))
  {
    hide Parse;
    var b := [0, 5, 0, code] + text + [0];
    assert b == [0, 5, 0, code % 256] + (text + [0] + []);
    ErrorTextParses(b, code, text, []);
  }

  /** The five datagrams carry these codes and texts. */
  lemma KnownErrors()
    ensures Received(FILE_NOT_FOUND) == Some(Error(1, FILE_NOT_FOUND_TEXT))
    ensures Received(FILE_TOO_LARGE) == Some(Error(3, FILE_TOO_LARGE_TEXT))
    ensures Received(EXCEEDS_TSIZE) == Some(Error(3, EXCEEDS_TSIZE_TEXT))
    ensures Received(WRITE_FAILED) == Some(Error(2, WRITE_FAILED_TEXT))
    ensures Received(ILLEGAL_OPERATION) == Some(Error(4, ILLEGAL_OPERATION_TEXT))
  {
    hide Received;
    ErrorReads(1, FILE_NOT_FOUND_TEXT);
    ErrorReads(3, FILE_TOO_LARGE_TEXT);
    ErrorReads(3, EXCEEDS_TSIZE_TEXT);
    ErrorReads(2, WRITE_FAILED_TEXT);
    ErrorReads(4, ILLEGAL_OPERATION_TEXT);
  }

  // ----- Patience

  // The failed sendto calls at the end of a trace.
  function LostInARow(trace: Trace): nat {
    if trace.Then? && trace.event.Lost? then LostInARow(trace.past) + 1 else 0
  }

  // `greetings` is the number of attempts the start of the session allows.
  function Tries(goal: Goal, greetings: nat): nat {
    match goal
    case BeginReceiving => greetings
    case AwaitAck => 5
    case AckBlock(_) => 5
    case Report => 25
  }

  predicate Patient(greetings: nat, trace: Trace, s: State) {
    s.phase.Sending? ==>
      && 1 <= s.phase.left && s.phase.left + LostInARow(trace) == Tries(s.phase.goal, greetings)
      && (s.phase.goal.BeginReceiving? && trace.Then? ==> trace.event.Lost?)
  }

  lemma PatienceKept(role: Role, greetings: nat, past: Trace, s: State, e: Event)
    requires Patient(greetings, past, s) && Next(role, s, e).Some?
    ensures Patient(greetings, Then(past, e), Next(role, s, e).value)
  {
    hide Received, ErrorDatagram, DataDatagram, AckDatagram, Block;
  }

  lemma {:induction false} PatienceHolds(role: Role, start: State, greetings: nat, trace: Trace)
    requires Patient(greetings, Begin, start) && Replay(role, start, trace).Some?
    ensures Patient(greetings, trace, Replay(role, start, trace).value)
  {
    hide Next, Patient;
    match trace
    case Begin =>
    case Then(past, e) =>
      PatienceHolds(role, start, greetings, past);
      PatienceKept(role, greetings, past, Replay(role, start, past).value, e);
  }

  // After a failed sendto call the session is over exactly when no try is left.
  lemma LastTry(role: Role, start: State, greetings: nat, past: Trace, datagram: Bytes)
    requires Patient(greetings, Begin, start) && Replay(role, start, Then(past, Lost(datagram))).Some?
    ensures var s := Replay(role, start, past).value;
            && s.phase.Sending? && s.phase.datagram == datagram
            && (Replay(role, start, Then(past, Lost(datagram))).value.phase.Ended?
                <==> LostInARow(past) + 1 == Tries(s.phase.goal, greetings))
  {
    hide Received, AfterSent, AfterReceived, Tries;
    PatienceHolds(role, start, greetings, past);
  }

  /** A download gives up exactly after five failed sendto calls in a row; its ERROR after 25. */
  lemma ReadGivesUp(readOk: bool, file: Bytes, maxSize: nat, past: Trace, datagram: Bytes)
    requires Replay(Reading(file), ReadStart(readOk, file, maxSize), Then(past, Lost(datagram))).Some?
    ensures Replay(Reading(file), ReadStart(readOk, file, maxSize), Then(past, Lost(datagram))).value.phase.Ended?
       <==> LostInARow(past) + 1 == if readOk && |file| <= maxSize then 5 else 25
  {
    hide Next, ErrorDatagram, DataDatagram;
    LastTry(Reading(file), ReadStart(readOk, file, maxSize), 5, past, datagram);
    if readOk && |file| <= maxSize {
      ReaderInvHolds(file, maxSize, past);
    } else {
      RefusedRead(readOk, file, maxSize, past);
    }
  }

  /** An upload gives up exactly after one failed sendto call for its OACK, 25 for an ERROR, and
      five for anything else. */
  lemma WriteGivesUp(role: Role, oack: Option<Bytes>, past: Trace, datagram: Bytes)
    requires role.Writing? && Replay(role, WriteStart(oack), Then(past, Lost(datagram))).Some?
    ensures Replay(role, WriteStart(oack), Then(past, Lost(datagram))).value.phase.Ended?
       <==> LostInARow(past) + 1 == (if Delivered(past) == [] then (if oack.Some? then 1 else 5)
                                     else if IsError(datagram) then 25 else 5)
  {
    hide Next, Received, AckDatagram, BlocksArrived, Payloads, AckSeq, IsError;
    LastTry(role, WriteStart(oack), if oack.Some? then 1 else 5, past, datagram);
    WriterInvHolds(role, oack, past);
    AckIsNoError(Replay(role, WriteStart(oack), past).value.blocks);
  }

  lemma AckIsNoError(i: nat)
    ensures !IsError(AckDatagram(i))
  {
  }

  // ----- Refused downloads

  // Only the ERROR is sent, at most once, and it is given up only after 25 attempts.
  ghost predicate RefusalInv(error: Bytes, trace: Trace, s: State) {
    && Arrived(trace) == [] && s.blocks == 0
    && match s.phase
       case Sending(d, left, goal) =>
         d == error && goal == Report && Delivered(trace) == [] && 1 <= left && Attempts(trace) + left == 25
       case Ended(completed) =>
         !completed && if Delivered(trace) == [] then Attempts(trace) == 25
                       else Delivered(trace) == [error] && Attempts(trace) <= 25
       case _ => false
  }

  lemma {:induction false} RefusedRead(readOk: bool, file: Bytes, maxSize: nat, trace: Trace)
    requires !readOk || |file| > maxSize
    requires Replay(Reading(file), ReadStart(readOk, file, maxSize), trace).Some?
    ensures RefusalInv(if !readOk then FILE_NOT_FOUND else FILE_TOO_LARGE,
                       trace, Replay(Reading(file), ReadStart(readOk, file, maxSize), trace).value)
  {
    hide Parse, Print, ErrorDatagram;
    match trace
    case Begin =>
      FileNotFoundBytes();
      FileTooLargeBytes();
    case Then(past, e) =>
      RefusedRead(readOk, file, maxSize, past);
  }

  // ----- Refused uploads

  // The ERROR that is due after the last event of a trace, judged by what arrived.
  function Refusal(role: Role, trace: Trace): Option<Bytes>
    requires role.Writing?
  {
    match trace
    case Then(_, Got(datagram)) =>
      if Received(datagram).Some? && !Received(datagram).value.Data? then Some(ILLEGAL_OPERATION) else None
    case Then(past, Sent(datagram)) =>
      var size := |Payloads(Arrived(past))|;
      if IsError(datagram) then None
      else if size > role.maxSize then Some(FILE_TOO_LARGE)
      else if role.sizeLimit.Some? && size > role.sizeLimit.value then Some(EXCEEDS_TSIZE)
      else None
    case Then(_, Stored(_, ok)) => if ok then None else Some(WRITE_FAILED)
    case _ => None
  }

  ghost predicate RefusalOk(role: Role, trace: Trace, s: State)
    requires role.Writing?
  {
    && (Refusal(role, trace).Some? ==> s.phase == Sending(Refusal(role, trace).value, 25, Report))
    && (s.phase.Sending? && s.phase.goal.Report? ==>
          || Refusal(role, trace) == Some(s.phase.datagram)
          || (trace.Then? && trace.event == Lost(s.phase.datagram)))
  }

  lemma RefusalStep(role: Role, greeting: Bytes, past: Trace, s: State, e: Event)
    requires role.Writing? && WriterInv(role, greeting, past, s) && Next(role, s, e).Some?
    ensures RefusalOk(role, Then(past, e), Next(role, s, e).value)
  {
    hide Parse, Print, Received, Payloads, BlocksArrived, ErrorDatagram, AckSeq, AckDatagram, IsError,
         FILE_TOO_LARGE, EXCEEDS_TSIZE, WRITE_FAILED, ILLEGAL_OPERATION;
    FileTooLargeBytes();
    ExceedsTsizeBytes();
    WriteFailedBytes();
    IllegalOperationBytes();
    AckIsNoError(s.blocks);
    assert |Arrived(past)| == s.blocks ==> Arrived(past)[..s.blocks] == Arrived(past);
  }

  lemma {:induction false} RefusalHolds(role: Role, oack: Option<Bytes>, trace: Trace)
    requires role.Writing? && Replay(role, WriteStart(oack), trace).Some?
    ensures RefusalOk(role, trace, Replay(role, WriteStart(oack), trace).value)
  {
    hide Next, WriterInv, Print;
    if trace.Then? {
      WriterInvHolds(role, oack, trace.past);
      RefusalStep(role, WriteStart(oack).phase.datagram, trace.past,
                  Replay(role, WriteStart(oack), trace.past).value, trace.event);
    }
  }

  lemma RefusalIsNotTheEnd(role: Role, past: Trace, s: State)
    requires role.Writing? && RefusalOk(role, past, s) && Refusal(role, past).Some?
    ensures !s.phase.Ended?
  {
  }

  lemma ReplayLast(role: Role, start: State, past: Trace, e: Event)
    requires Replay(role, start, Then(past, e)).Some?
    ensures Replay(role, start, past).Some? && Next(role, Replay(role, start, past).value, e).Some?
  {
  }

  lemma AttemptIsDue(role: Role, greeting: Bytes, past: Trace, s: State, e: Event)
    requires role.Writing? && WriterInv(role, greeting, past, s) && RefusalOk(role, past, s) && Next(role, s, e).Some?
    ensures Refusal(role, past).Some? ==> e == Sent(Refusal(role, past).value) || e == Lost(Refusal(role, past).value)
    ensures (e.Sent? || e.Lost?) && Arrived(past) != [] && IsError(e.datagram) ==>
              Refusal(role, past) == Some(e.datagram) || past.event == Lost(e.datagram)
  {
    hide Parse, Print, Received, Payloads, BlocksArrived, ErrorDatagram, AckSeq, AckDatagram, IsError,
         AfterSent, AfterReceived, Refusal, WritesOk, UploadReplies;
    AckIsNoError(s.blocks);
  }

  /** In every run of an upload: whenever a packet other than DATA arrived, the data exceeded a
      limit, or the write callback failed, the session is not over and the ERROR for that reason is
      the next thing attempted. No other ERROR ever is, except to repeat a failed attempt. */
  lemma RefusalFollows(role: Role, oack: Option<Bytes>, past: Trace, e: Event)
    requires role.Writing? && Replay(role, WriteStart(oack), past).Some?
    ensures Refusal(role, past).Some? ==> !Replay(role, WriteStart(oack), past).value.phase.Ended?
    ensures Replay(role, WriteStart(oack), Then(past, e)).Some? && Refusal(role, past).Some? ==>
              e == Sent(Refusal(role, past).value) || e == Lost(Refusal(role, past).value)
    ensures Replay(role, WriteStart(oack), Then(past, e)).Some? && (e.Sent? || e.Lost?)
            && Arrived(past) != [] && IsError(e.datagram) ==>
              Refusal(role, past) == Some(e.datagram) || past.event == Lost(e.datagram)
  {
    hide Replay, Next, WriterInv, RefusalOk, Refusal, IsError;
    RefusalHolds(role, oack, past);
    WriterInvHolds(role, oack, past);
    var s := Replay(role, WriteStart(oack), past).value;
    if Refusal(role, past).Some? {
      RefusalIsNotTheEnd(role, past, s);
    }
    if Replay(role, WriteStart(oack), Then(past, e)).Some? {
      ReplayLast(role, WriteStart(oack), past, e);
      AttemptIsDue(role, WriteStart(oack).phase.datagram, past, s, e);
    }
  }
}
