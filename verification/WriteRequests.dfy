/**
 What the options of a write request change: how it is answered, and which files it then admits.
 Option names are written out as bytes.
 */
module WriteRequests {
  import opened Wire
  import opened Codec
  import opened CodecTheorems
  import opened Negotiation
  import opened Session
  import opened SessionTheorems
  import opened Handlers
  import opened Refusals
  import opened AgreedBlocks

  // ----- The announced size

  // What the client announced under "tsize", if it can be read.
  function Announced(options: Options, stoull: Bytes -> Option<U64>): Option<U64> {
    if [116, 115, 105, 122, 101] in options then stoull(options[[116, 115, 105, 122, 101]]) else None
  }

  /** A size is admitted up to the server's limit and, if a size n was announced, up to n + 512;
      that sum wraps around at 2^64, so an n close to that leaves less than 512 bytes. */
  predicate Admitted(options: Options, stoull: Bytes -> Option<U64>, maxSize: nat, size: nat) {
    && size <= maxSize
    && match Announced(options, stoull)
       case None => true
       case Some(n) =>
         if n + 512 < 0x1_0000_0000_0000_0000 then size <= n + 512
         else size <= n + 512 - 0x1_0000_0000_0000_0000
  }

  // The role of the handler for a request with these options.
  function Upload(options: Options, stoull: Bytes -> Option<U64>, maxSize: nat): Role {
    Writing(maxSize, SizeLimit(options, stoull))
  }

  lemma AdmittedIff(options: Options, stoull: Bytes -> Option<U64>, maxSize: nat, size: nat)
    ensures Admitted(options, stoull, maxSize, size) <==> !TooLarge(Upload(options, stoull, maxSize), size)
  {
  }

  /** Nothing that is not admitted ever reaches the write callback. */
  lemma StoresOnlyAdmitted(options: Options, stoull: Bytes -> Option<U64>, maxSize: nat,
                           oack: Option<Bytes>, trace: Trace)
    requires Replay(Upload(options, stoull, maxSize), WriteStart(oack), trace).Some?
    ensures forall content <- Writes(trace) :: Admitted(options, stoull, maxSize, |content|)
  {
    hide Replay, Admitted, Parse, Received;
    var role := Upload(options, stoull, maxSize);
    WriteTrace(role, oack, trace);
    AdmittedIff(options, stoull, maxSize, |Replay(role, WriteStart(oack), trace).value.buffer|);
  }

  /** A file sent in blocks of 512 over a channel that delivers every datagram once is handed to
      the write callback exactly when its size is admitted. */
  lemma UploadStoredIff(options: Options, stoull: Bytes -> Option<U64>, maxSize: nat, oack: Option<Bytes>,
                        file: Bytes, store: Bytes -> bool, trace: Trace)
    requires IsRun(Upload(options, stoull, maxSize), WriteStart(oack), AgreedEnv(file, 512, store), trace)
    ensures Writes(trace) == [file] <==> Admitted(options, stoull, maxSize, |file|)
  {
    hide Replay, Admitted, AgreedEnv, Agrees, Outcome;
    AdmittedIff(options, stoull, maxSize, |file|);
    if Admitted(options, stoull, maxSize, |file|) {
      AgreedUpload(Upload(options, stoull, maxSize), oack, file, 512, store, trace);
      OutcomeIsFileIff(file, 512);
    } else {
      StoresOnlyAdmitted(options, stoull, maxSize, oack, trace);
      assert Writes(trace) == [file] ==> file in Writes(trace);
    }
  }

  // ----- The greeting

  // The datagram answers options: names kept, values as they should be.
  ghost predicate AnswersOptions(datagram: Bytes, options: Options, stoi: Stoi) {
    && Received(datagram).Some? && Received(datagram).value.OptionAck?
    && Received(datagram).value.options.Keys == options.Keys
    && forall name <- options :: AnsweredAs(name, options[name], Received(datagram).value.options[name], stoi)
  }

  predicate IsOack(datagram: Bytes) {
    Received(datagram).Some? && Received(datagram).value.OptionAck?
  }

  lemma GreetingReads(b: Bytes, order: seq<Bytes>, stoi: Stoi)
    requires Parse(b).Some? && Parse(b).value.Request? && Enumerates(order, Parse(b).value.options)
    ensures var options := Parse(b).value.options;
            var greeting := WriteStart(Greeting(options, order, stoi)).phase.datagram;
            if options == map[] then Received(greeting) == Some(Ack(0)) else AnswersOptions(greeting, options, stoi)
  {
    hide Parse, Oack, AnsweredAs, Enumerates;
    if Parse(b).value.options == map[] {
      RoundTrip(Ack(0), []);
    } else {
      var answers := OackDelivers(b, order, stoi);
    }
  }

  // Only the greeting can be an OACK, and one is tried once.
  lemma LaterIsNoOack(role: Role, oack: Option<Bytes>, past: Trace, e: Event)
    requires role.Writing? && past != Begin && (e.Sent? || e.Lost?)
    requires Replay(role, WriteStart(oack), Then(past, e)).Some?
    ensures !IsOack(e.datagram)
  {
    hide Parse, Print, Received, AckDatagram, BlocksArrived, Payloads, AckSeq, IsError, AfterSent, AfterReceived,
         WritesOk, UploadReplies;
    var s := Replay(role, WriteStart(oack), past).value;
    WriterInvHolds(role, oack, past);
    PatienceHolds(role, WriteStart(oack), if oack.Some? then 1 else 5, past);
    if IsError(e.datagram) {
      ErrorIsNoOack(e.datagram);
    }
    AckIsNoOack(s.blocks);
  }

  lemma ErrorIsNoOack(datagram: Bytes)
    requires IsError(datagram)
    ensures !IsOack(datagram)
  {
  }

  lemma AckIsNoOack(i: nat)
    ensures !IsOack(AckDatagram(i))
  {
    RoundTrip(Ack(Number(i)), []);
  }

  /** Every accepted write request is answered, before anything else, by an OACK with the right
      answers if it has options and by ACK 0 if it has none; an OACK is attempted at most once. */
  lemma GreetingFirst(b: Bytes, order: seq<Bytes>, stoi: Stoi, role: Role, past: Trace, e: Event)
    requires Parse(b).Some? && Parse(b).value.Request? && Enumerates(order, Parse(b).value.options)
    requires role.Writing?
    requires Replay(role, WriteStart(Greeting(Parse(b).value.options, order, stoi)), Then(past, e)).Some?
    ensures past == Begin ==>
              && (e.Sent? || e.Lost?)
              && if Parse(b).value.options == map[] then Received(e.datagram) == Some(Ack(0))
                 else AnswersOptions(e.datagram, Parse(b).value.options, stoi)
    ensures past != Begin && (e.Sent? || e.Lost?) ==> !IsOack(e.datagram)
  {
    hide Parse, Oack, AnswersOptions, IsOack, Received, AfterSent, AfterReceived;
    var oack := Greeting(Parse(b).value.options, order, stoi);
    if past == Begin {
      assert Replay(role, WriteStart(oack), past) == Some(WriteStart(oack));
      GreetingReads(b, order, stoi);
    } else if e.Sent? || e.Lost? {
      LaterIsNoOack(role, oack, past, e);
    }
  }
}
