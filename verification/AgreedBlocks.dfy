/**
 Uploads after a block size was negotiated. The server agrees to every size from 8 to 65464, but
 its buffers and its end-of-file test know only 512; a client that keeps to the agreement sends
 blocks of the agreed size. The theorems say what such an upload stores.
 */
module AgreedBlocks {
  import opened Wire
  import opened Codec
  import opened CodecTheorems
  import opened Negotiation
  import opened Session
  import opened SessionTheorems

  // ----- One block

  // What the receive buffer leaves of a payload.
  function Cut(payload: Bytes): Bytes {
    payload[..Min(MAX_DATA_SIZE, |payload|)]
  }

  /** A DATA datagram of any length is read as DATA, with at most the first 512 bytes. */
  lemma BlockIsCut(block: U16, payload: Bytes)
    ensures Received(Print(Data(block, payload), [])) == Some(Data(block, Cut(payload)))
  {
    var cut := Data(block, Cut(payload));
    var datagram := Print(Data(block, payload), []);
    assert Print(cut, []) == if |datagram| > MAX_PACKET_SIZE then datagram[..MAX_PACKET_SIZE] else datagram;
    RoundTrip(cut, []);
  }

  /** The receive loop takes a block whole, and as one that others follow, exactly when it has
      512 bytes, whatever size was agreed. */
  lemma BlockTakenWhole(role: Role, accepted: nat, buffer: Bytes, payload: Bytes)
    requires role.Writing?
    ensures Next(role, State(Listening, accepted, buffer), Got(Print(Data(Number(accepted + 1), payload), [])))
         == Some(State(Sending(AckDatagram(accepted + 1), MAX_RETRIES, AckBlock(false)),
                       accepted + 1, buffer + payload))
       <==> |payload| == 512
  {
    hide Parse, Print, Received, AckDatagram;
    BlockIsCut(Number(accepted + 1), payload);
    assert |buffer + Cut(payload)| == |buffer| + |Cut(payload)|;
    assert |payload| == MAX_DATA_SIZE ==> Cut(payload) == payload;
  }

  // ----- A client that sends blocks of `size` bytes

  function Chunks(file: Bytes, size: nat): nat
    requires size > 0
  {
    |file| / size + 1
  }

  function Chunk(file: Bytes, size: nat, i: nat): Bytes {
    if 1 <= i && size * (i - 1) <= |file| && size * (i - 1) <= size * i
    then file[size * (i - 1)..Min(size * i, |file|)]
    else []
  }

  lemma ChunkSize(file: Bytes, size: nat, i: nat)
    requires size > 0 && 1 <= i <= Chunks(file, size)
    ensures size * i == size * (i - 1) + size && size * (i - 1) <= |file|
    ensures |Chunk(file, size, i)| == if i < Chunks(file, size) then size else |file| % size
  {
    var n := |file| / size;
    assert |file| == size * n + |file| % size;
    assert size * i == size * (i - 1) + size;
    if i <= n {
      assert size * i <= size * n by { Monotone(size, i, n); }
    }
  }

  lemma Monotone(size: nat, i: nat, j: nat)
    requires i <= j
    ensures size * i <= size * j
  {
  }

  function ChunkDatagram(file: Bytes, size: nat, i: nat): Bytes {
    Print(Data(Number(i), Chunk(file, size, i)), [])
  }

  // What the receiver's buffer holds after k chunks.
  function CutJoined(file: Bytes, size: nat, k: nat): Bytes {
    if k == 0 then [] else CutJoined(file, size, k - 1) + Cut(Chunk(file, size, k))
  }

  lemma {:induction false} CutJoinedFits(file: Bytes, size: nat, k: nat)
    requires size > 0 && k <= Chunks(file, size)
    ensures |CutJoined(file, size, k)| <= Min(size * k, |file|)
  {
    if k > 0 {
      ChunkSize(file, size, k);
      CutJoinedFits(file, size, k - 1);
    }
  }

  // A channel that delivers every datagram once: the i-th receive yields the i-th chunk, and the
  // client has nothing more to send after the last.
  function AgreedEnv(file: Bytes, size: nat, store: Bytes -> bool): Env
    requires size > 0
  {
    Env((n: nat) => true,
        (n: nat) => if n < Chunks(file, size) then Some(ChunkDatagram(file, size, n + 1)) else None,
        store)
  }

  // k rounds after the greeting.
  function Rounds(greeting: Bytes, file: Bytes, size: nat, k: nat): Trace {
    if k == 0 then Then(Begin, Sent(greeting))
    else Then(Then(Rounds(greeting, file, size, k - 1), Got(ChunkDatagram(file, size, k))), Sent(AckDatagram(k)))
  }

  // ----- The receiver's side of a round

  lemma RoundAccepted(role: Role, file: Bytes, size: nat, k: nat)
    requires role.Writing? && !TooLarge(role, |file|) && size > 0 && 1 <= k <= Chunks(file, size)
    ensures var short := |Cut(Chunk(file, size, k))| < MAX_DATA_SIZE;
            var acking := State(Sending(AckDatagram(k), MAX_RETRIES, AckBlock(short)), k, CutJoined(file, size, k));
            && Next(role, State(Listening, k - 1, CutJoined(file, size, k - 1)), Got(ChunkDatagram(file, size, k)))
               == Some(acking)
            && Next(role, acking, Sent(AckDatagram(k)))
               == Some(acking.(phase := if short then Storing else Listening))
  {
    hide Parse, Print, Received, Chunk, Cut, AckDatagram, ErrorDatagram;
    BlockIsCut(Number(k), Chunk(file, size, k));
    CutJoinedFits(file, size, k);
  }

  ghost predicate FullUpTo(file: Bytes, size: nat, k: nat) {
    forall i :: 1 <= i <= k ==> |Cut(Chunk(file, size, i))| == MAX_DATA_SIZE
  }

  lemma GreetingLeaves(role: Role, oack: Option<Bytes>)
    ensures Replay(role, WriteStart(oack), Then(Begin, Sent(WriteStart(oack).phase.datagram))) == Some(Idle())
  {
    hide Parse, Print, AckDatagram;
    assert Replay(role, WriteStart(oack), Begin) == Some(WriteStart(oack));
  }

  // Full blocks keep the receive loop going.
  lemma {:induction false} RoundsRun(role: Role, oack: Option<Bytes>, file: Bytes, size: nat,
                                     store: Bytes -> bool, k: nat)
    requires role.Writing? && !TooLarge(role, |file|) && size > 0 && k <= Chunks(file, size)
    requires FullUpTo(file, size, k)
    ensures var trace := Rounds(WriteStart(oack).phase.datagram, file, size, k);
            && Replay(role, WriteStart(oack), trace) == Some(State(Listening, k, CutJoined(file, size, k)))
            && Agrees(AgreedEnv(file, size, store), trace)
            && Receptions(trace) == k && Writes(trace) == []
  {
    hide Next, Chunk, Cut, AckDatagram, ChunkDatagram;
    var greeting := WriteStart(oack).phase.datagram;
    if k == 0 {
      GreetingLeaves(role, oack);
    } else {
      RoundsRun(role, oack, file, size, store, k - 1);
      RoundAccepted(role, file, size, k);
      var arrived := Then(Rounds(greeting, file, size, k - 1), Got(ChunkDatagram(file, size, k)));
      assert Agrees(AgreedEnv(file, size, store), arrived);
    }
  }

  // ----- How the upload ends

  // The first short block, and with it the write callback.
  function Completed(greeting: Bytes, file: Bytes, size: nat, k: nat, ok: bool): Trace {
    var stored := Then(Rounds(greeting, file, size, k), Stored(CutJoined(file, size, k), ok));
    if ok then stored else Then(stored, Sent(ErrorDatagram(2, "File write failed")))
  }

  lemma StoreEnds(role: Role, blocks: nat, content: Bytes, ok: bool)
    ensures Next(role, State(Storing, blocks, content), Stored(content, ok))
         == Some(if ok then State(Ended(true), blocks, content)
                 else Refuse(State(Storing, blocks, content), 2, "File write failed"))
    ensures Next(role, Refuse(State(Storing, blocks, content), 2, "File write failed"),
                 Sent(ErrorDatagram(2, "File write failed")))
         == Some(State(Ended(false), blocks, content))
  {
    hide Print, Parse;
  }

  lemma ShortBlockStores(role: Role, oack: Option<Bytes>, file: Bytes, size: nat, store: Bytes -> bool, k: nat)
    requires role.Writing? && !TooLarge(role, |file|) && size > 0 && 1 <= k <= Chunks(file, size)
    requires FullUpTo(file, size, k - 1) && |Cut(Chunk(file, size, k))| < MAX_DATA_SIZE
    ensures var content := CutJoined(file, size, k);
            var trace := Completed(WriteStart(oack).phase.datagram, file, size, k, store(content));
            IsRun(role, WriteStart(oack), AgreedEnv(file, size, store), trace) && Writes(trace) == [content]
  {
    hide Next, Chunk, Cut, AckDatagram, ChunkDatagram, ErrorDatagram, CutJoined, Refuse;
    RoundsRun(role, oack, file, size, store, k - 1);
    RoundAccepted(role, file, size, k);
    var content := CutJoined(file, size, k);
    StoreEnds(role, k, content, store(content));
    var env := AgreedEnv(file, size, store);
    var arrived := Then(Rounds(WriteStart(oack).phase.datagram, file, size, k - 1), Got(ChunkDatagram(file, size, k)));
    assert Agrees(env, arrived) && Writes(arrived) == [];
    var acked := Then(arrived, Sent(AckDatagram(k)));
    assert Agrees(env, acked) && Writes(acked) == [];
    assert Replay(role, WriteStart(oack), acked) == Some(State(Storing, k, content));
    assert acked == Rounds(WriteStart(oack).phase.datagram, file, size, k);
    var stored := Then(acked, Stored(content, store(content)));
    assert Agrees(env, stored) && Writes(stored) == [content];
    assert Replay(role, WriteStart(oack), stored).Some?;
  }

  // Without a short block the server waits in vain for one.
  lemma NoShortBlock(role: Role, oack: Option<Bytes>, file: Bytes, size: nat, store: Bytes -> bool)
    requires role.Writing? && !TooLarge(role, |file|) && size > 0 && FullUpTo(file, size, Chunks(file, size))
    ensures var trace := Then(Rounds(WriteStart(oack).phase.datagram, file, size, Chunks(file, size)), Silence);
            IsRun(role, WriteStart(oack), AgreedEnv(file, size, store), trace) && Writes(trace) == []
  {
    hide Parse, Print, Received, Chunk, Cut, AckDatagram, ChunkDatagram, ErrorDatagram, CutJoined;
    RoundsRun(role, oack, file, size, store, Chunks(file, size));
  }

  // ----- What is stored

  // The content handed to the write callback, if any.
  function Outcome(file: Bytes, size: nat): Option<Bytes>
    requires size > 0
  {
    if size < MAX_DATA_SIZE then Some(file[..Min(size, |file|)])
    else if |file| % size < MAX_DATA_SIZE then Some(CutJoined(file, size, Chunks(file, size)))
    else None
  }

  lemma FirstChunk(file: Bytes, size: nat)
    requires 0 < size < MAX_DATA_SIZE
    ensures Chunk(file, size, 1) == Cut(Chunk(file, size, 1)) == file[..Min(size, |file|)]
    ensures CutJoined(file, size, 1) == file[..Min(size, |file|)]
  {
    assert size * 0 == 0 && size * 1 == size;
    assert CutJoined(file, size, 0) == [];
  }

  lemma LargeChunksFull(file: Bytes, size: nat, k: nat)
    requires size >= MAX_DATA_SIZE && k < Chunks(file, size)
    ensures FullUpTo(file, size, k)
  {
    forall i | 1 <= i <= k
      ensures |Cut(Chunk(file, size, i))| == MAX_DATA_SIZE
    {
      ChunkSize(file, size, i);
    }
  }

  /** What an upload in blocks of the agreed size hands to the write callback, on a channel that
      delivers every datagram once: below 512 the first block alone; from 512 on the first 512
      bytes of every block, or nothing at all if the last block has 512 bytes or more. */
  lemma AgreedUpload(role: Role, oack: Option<Bytes>, file: Bytes, size: nat, store: Bytes -> bool, trace: Trace)
    requires role.Writing? && !TooLarge(role, |file|) && size > 0
    requires IsRun(role, WriteStart(oack), AgreedEnv(file, size, store), trace)
    ensures Writes(trace) == match Outcome(file, size) case None => [] case Some(content) => [content]
  {
    hide IsRun, Chunk, Cut, CutJoined, Completed, AgreedEnv;
    var env, greeting, n := AgreedEnv(file, size, store), WriteStart(oack).phase.datagram, Chunks(file, size);
    if size < MAX_DATA_SIZE {
      FirstChunk(file, size);
      ShortBlockStores(role, oack, file, size, store, 1);
      RunIsUnique(role, WriteStart(oack), env, trace,
                  Completed(greeting, file, size, 1, store(CutJoined(file, size, 1))));
    } else {
      LargeChunksFull(file, size, n - 1);
      LastChunkCut(file, size);
      if |file| % size < MAX_DATA_SIZE {
        ShortBlockStores(role, oack, file, size, store, n);
        RunIsUnique(role, WriteStart(oack), env, trace,
                    Completed(greeting, file, size, n, store(CutJoined(file, size, n))));
      } else {
        NoShortBlock(role, oack, file, size, store);
        RunIsUnique(role, WriteStart(oack), env, trace, Then(Rounds(greeting, file, size, n), Silence));
      }
    }
  }

  lemma LastChunkCut(file: Bytes, size: nat)
    requires size > 0
    ensures |Cut(Chunk(file, size, Chunks(file, size)))| == Min(MAX_DATA_SIZE, |file| % size)
  {
    ChunkSize(file, size, Chunks(file, size));
  }

  lemma {:induction false} DefaultSizeKeepsAll(file: Bytes, k: nat)
    requires k <= Chunks(file, MAX_DATA_SIZE)
    ensures CutJoined(file, MAX_DATA_SIZE, k) == file[..Min(MAX_DATA_SIZE * k, |file|)]
  {
    if k > 0 {
      DefaultSizeKeepsAll(file, k - 1);
      ChunkSize(file, MAX_DATA_SIZE, k);
    }
  }

  // Every full block of more than 512 bytes loses some.
  lemma {:induction false} LargeSizeLoses(file: Bytes, size: nat, k: nat)
    requires size > MAX_DATA_SIZE && k < Chunks(file, size)
    ensures |CutJoined(file, size, k)| + k <= size * k
  {
    if k > 0 {
      LargeSizeLoses(file, size, k - 1);
      ChunkSize(file, size, k);
    }
  }

  lemma OutcomeIsFileIff(file: Bytes, size: nat)
    requires size > 0
    ensures Outcome(file, size) == Some(file)
       <==> size == MAX_DATA_SIZE || (|file| <= size && |file| < MAX_DATA_SIZE)
  {
    var n := Chunks(file, size);
    if size == MAX_DATA_SIZE {
      DefaultSizeKeepsAll(file, n);
      assert file[..Min(MAX_DATA_SIZE * n, |file|)] == file;
    } else if size < MAX_DATA_SIZE {
      assert |file| <= size ==> file[..Min(size, |file|)] == file;
    } else if |file| < size {
      SingleChunk(file, size);
      assert |file| < MAX_DATA_SIZE ==> Cut(file) == file;
    } else {
      LargeSizeLoses(file, size, n - 1);
      LastChunkCut(file, size);
      ChunkSize(file, size, n);
    }
  }

  lemma SingleChunk(file: Bytes, size: nat)
    requires |file| < size
    ensures Chunks(file, size) == 1 && |file| % size == |file|
    ensures CutJoined(file, size, 1) == Cut(file)
  {
    assert |file| / size == 0 && |file| % size == |file|;
    assert size * 0 == 0 && size * 1 == size;
    assert CutJoined(file, size, 0) == [];
    assert Chunk(file, size, 1) == file;
  }

  /** Every size from 8 to 65464 is agreed to; the upload then stores the file exactly when the
      size is 512 or the file fits in one short block. */
  lemma AgreedUploadIff(options: Options, order: seq<Bytes>, stoi: Stoi, size: nat,
                        role: Role, file: Bytes, store: Bytes -> bool, trace: Trace)
    requires BLKSIZE in options && stoi(options[BLKSIZE]) == Some(size) && 8 <= size <= 65464
    requires Enumerates(order, options) && role.Writing? && !TooLarge(role, |file|)
    requires IsRun(role, WriteStart(Some(Oack(options, order, stoi))), AgreedEnv(file, size, store), trace)
    ensures Negotiated(options, stoi)[BLKSIZE] == options[BLKSIZE]
    ensures Writes(trace) == [file] <==> size == 512 || (|file| <= size && |file| < 512)
  {
    hide IsRun, AgreedEnv, Oack, Outcome;
    AgreedUpload(role, Some(Oack(options, order, stoi)), file, size, store, trace);
    OutcomeIsFileIff(file, size);
  }
}
