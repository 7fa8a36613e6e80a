/**
 The sending loop of HandleReadRequest joined to the receiving loop of HandleWriteRequest by a
 network that may lose, duplicate, delay and reorder this transfer's datagrams: whatever was
 once sent may arrive at any time, any number of times, or never.

 The client has consumed the greeting before the first block, but copies of it may still be
 under way, so the network starts with an arbitrary set of greetings.
 */
module Network {
  import opened Wire
  import opened Codec
  import opened CodecTheorems
  import opened Session
  import opened SessionTheorems

  // data, acks: everything ever sent in each direction.
  datatype World = World(sender: State, receiver: State, data: set<Bytes>, acks: set<Bytes>)

  datatype Move = BySender(event: Event) | ByReceiver(event: Event)

  datatype Moves = Start | After(past: Moves, move: Move)

  // The file being sent, the receiver's limits and the greetings still under way.
  datatype Transfer = Transfer(file: Bytes, limits: Role, greetings: set<Bytes>)

  function Initial(t: Transfer): World {
    World(Offer(t.file, 0), Idle(), {}, t.greetings)
  }

  function Advance(t: Transfer, w: World, m: Move): Option<World> {
    var e := m.event;
    if m.BySender? then
      if e.Got? && e.datagram !in w.acks then None else
        match Next(Reading(t.file), w.sender, e)
        case None => None
        case Some(s) => Some(w.(sender := s, data := if e.Sent? then w.data + {e.datagram} else w.data))
    else
      if e.Got? && e.datagram !in w.data then None else
        match Next(t.limits, w.receiver, e)
        case None => None
        case Some(r) => Some(w.(receiver := r, acks := if e.Sent? then w.acks + {e.datagram} else w.acks))
  }

  function Exec(t: Transfer, moves: Moves): Option<World> {
    match moves
    case Start => Some(Initial(t))
    case After(past, m) =>
      match Exec(t, past)
      case None => None
      case Some(w) => Advance(t, w, m)
  }

  // ----- Each side of a joint run is a session

  function SenderPart(moves: Moves): Trace {
    match moves
    case Start => Begin
    case After(past, BySender(e)) => Then(SenderPart(past), e)
    case After(past, ByReceiver(_)) => SenderPart(past)
  }

  function ReceiverPart(moves: Moves): Trace {
    match moves
    case Start => Begin
    case After(past, ByReceiver(e)) => Then(ReceiverPart(past), e)
    case After(past, BySender(_)) => ReceiverPart(past)
  }

  /** Seen from either side, a joint run is a run of the handler's automaton. */
  lemma {:induction false} Projection(t: Transfer, moves: Moves)
    requires Exec(t, moves).Some?
    ensures Replay(Reading(t.file), Offer(t.file, 0), SenderPart(moves)) == Some(Exec(t, moves).value.sender)
    ensures Replay(t.limits, Idle(), ReceiverPart(moves)) == Some(Exec(t, moves).value.receiver)
  {
    hide Parse, Print, Next;
    match moves
    case Start =>
    case After(past, m) => Projection(t, past);
  }

  /** The receiver's side of a joint run, after its greeting, is a run of HandleWriteRequest. */
  lemma {:induction false} ReceiverIsUpload(t: Transfer, oack: Option<Bytes>, moves: Moves)
    requires Exec(t, moves).Some?
    ensures Replay(t.limits, WriteStart(oack),
                   Follow(Then(Begin, Sent(WriteStart(oack).phase.datagram)), ReceiverPart(moves)))
         == Some(Exec(t, moves).value.receiver)
  {
    hide Parse, Print;
    var greeted := Then(Begin, Sent(WriteStart(oack).phase.datagram));
    Projection(t, moves);
    assert Replay(t.limits, WriteStart(oack), Begin) == Some(WriteStart(oack));
    assert Replay(t.limits, WriteStart(oack), greeted) == Some(Idle());
    ReplayFollow(t.limits, WriteStart(oack), greeted, ReceiverPart(moves));
  }

  // ----- What the datagrams mean when they arrive

  lemma DataArrives(file: Bytes, i: nat)
    ensures Received(DataDatagram(file, i)) == Some(Data(Number(i), Block(file, i)))
  {
    RoundTrip(Data(Number(i), Block(file, i)), []);
  }

  lemma AckArrives(i: nat)
    ensures Received(AckDatagram(i)) == Some(Ack(Number(i)))
  {
    RoundTrip(Ack(Number(i)), []);
  }

  lemma ErrorIsNoAck(datagram: Bytes)
    requires IsError(datagram)
    ensures Received(datagram).Some? ==> !Received(datagram).value.Ack?
  {
  }

  // ----- Integrity

  // The datagram is one of the first k blocks of the file.
  ghost predicate AmongBlocks(file: Bytes, k: nat, datagram: Bytes) {
    exists i :: 1 <= i <= k && datagram == DataDatagram(file, i)
  }

  predicate SenderShape(file: Bytes, s: State) {
    match s.phase
    case Sending(d, _, goal) => goal == AwaitAck && s.blocks < Blocks(file) && d == DataDatagram(file, s.blocks + 1)
    case Listening => s.blocks < Blocks(file)
    case Storing => false
    case Ended(completed) => if completed then s.blocks == Blocks(file) else s.blocks < Blocks(file)
  }

  lemma SenderKeepsShape(file: Bytes, s: State, e: Event)
    requires SenderShape(file, s) && Next(Reading(file), s, e).Some?
    ensures SenderShape(file, Next(Reading(file), s, e).value)
    ensures e.Sent? ==> s.blocks < Blocks(file) && e.datagram == DataDatagram(file, s.blocks + 1)
    ensures Next(Reading(file), s, e).value.blocks ==
            if e.Got? && Received(e.datagram) == Some(Ack(Number(s.blocks + 1))) then s.blocks + 1 else s.blocks
  {
    hide Parse, Print, Received;
    if s.phase.Listening? {
      LastBlockIsShort(file, s.blocks + 1);
    }
  }

  /** The receiver's buffer is a block-aligned prefix of the file, and is the whole file once the
      loop has been left on a short block. */
  predicate Intact(file: Bytes, r: State) {
    && r.buffer == file[..Min(MAX_DATA_SIZE * r.blocks, |file|)]
    && (r.phase.Storing? || r.phase == Ended(true) ==> r.buffer == file)
  }

  predicate ReceiverShape(file: Bytes, r: State) {
    && r.blocks <= Blocks(file)
    && r.buffer == file[..Min(MAX_DATA_SIZE * r.blocks, |file|)]
    && match r.phase
       case Sending(d, _, AckBlock(last)) =>
         d == AckDatagram(r.blocks) && r.blocks > 0 && (last <==> r.blocks == Blocks(file))
       case Sending(d, _, Report) => IsError(d)
       case Sending(_, _, _) => false
       case Listening => r.blocks < Blocks(file)
       case Storing => r.blocks == Blocks(file)
       case Ended(completed) => completed ==> r.blocks == Blocks(file)
  }

  lemma ShapeIsIntact(file: Bytes, r: State)
    requires ReceiverShape(file, r)
    ensures Intact(file, r)
  {
    if r.blocks == Blocks(file) {
      assert file[..Min(MAX_DATA_SIZE * r.blocks, |file|)] == file;
    }
  }

  // Numbers identify blocks as long as there are no more of them than numbers.
  lemma NumbersAreUnique(i: nat, j: nat)
    requires 1 <= i <= 0x1_0000 && 1 <= j <= 0x1_0000 && Number(i) == Number(j)
    ensures i == j
  {
  }

  lemma ReceiverAccepts(t: Transfer, r: State, i: nat)
    requires t.limits.Writing? && Blocks(t.file) <= 0x1_0000
    requires ReceiverShape(t.file, r) && r.phase.Listening? && 1 <= i <= Blocks(t.file)
    ensures var r' := AfterReceived(t.limits, r, Received(DataDatagram(t.file, i)));
            ReceiverShape(t.file, r') && r'.blocks == (if i == r.blocks + 1 then r.blocks + 1 else r.blocks)
  {
    hide Parse, Print, Received;
    DataArrives(t.file, i);
    if Number(i) == Number(r.blocks + 1) {
      NumbersAreUnique(i, r.blocks + 1);
      LastBlockIsShort(t.file, i);
      assert t.file[..Min(MAX_DATA_SIZE * i, |t.file|)] == r.buffer + Block(t.file, i);
    }
  }

  lemma ReceiverKeepsShape(t: Transfer, r: State, e: Event)
    requires t.limits.Writing? && ReceiverShape(t.file, r) && Next(t.limits, r, e).Some?
    requires e.Got? ==> Blocks(t.file) <= 0x1_0000 && AmongBlocks(t.file, Blocks(t.file), e.datagram)
    ensures ReceiverShape(t.file, Next(t.limits, r, e).value)
    ensures !e.Got? ==> Next(t.limits, r, e).value.blocks == r.blocks
    ensures e.Sent? ==> IsError(e.datagram) || (r.blocks > 0 && e.datagram == AckDatagram(r.blocks))
  {
    hide Parse, Print, Received, ErrorDatagram;
    ErrorsAreErrors();
    if e.Got? {
      var i :| 1 <= i <= Blocks(t.file) && e.datagram == DataDatagram(t.file, i);
      ReceiverAccepts(t, r, i);
    }
  }

  ghost predicate DataFromFile(file: Bytes, k: nat, data: set<Bytes>) {
    forall d <- data :: AmongBlocks(file, k, d)
  }

  ghost predicate IntegrityInv(t: Transfer, w: World) {
    && SenderShape(t.file, w.sender)
    && ReceiverShape(t.file, w.receiver)
    && DataFromFile(t.file, Blocks(t.file), w.data)
  }

  lemma IntegrityKept(t: Transfer, w: World, m: Move)
    requires t.limits.Writing? && Blocks(t.file) <= 0x1_0000
    requires IntegrityInv(t, w) && Advance(t, w, m).Some?
    ensures IntegrityInv(t, Advance(t, w, m).value)
  {
    hide Next, Parse, Print, DataDatagram, SenderShape, ReceiverShape;
    match m
    case BySender(e) =>
      SenderKeepsShape(t.file, w.sender, e);
      if e.Sent? {
        assert AmongBlocks(t.file, Blocks(t.file), e.datagram);
      }
    case ByReceiver(e) =>
      ReceiverKeepsShape(t, w.receiver, e);
  }

  lemma {:induction false} IntegrityHolds(t: Transfer, moves: Moves)
    requires t.limits.Writing? && Blocks(t.file) <= 0x1_0000 && Exec(t, moves).Some?
    ensures IntegrityInv(t, Exec(t, moves).value)
  {
    hide Next, Advance, Parse, Print, DataDatagram;
    match moves
    case Start =>
      assert t.file[..0] == [];
    case After(past, m) =>
      IntegrityHolds(t, past);
      IntegrityKept(t, Exec(t, past).value, m);
  }

  // ----- Runs in rounds

  // The sender sends block k of the file, the receiver gets block k of `seen`, its ACK arrives.
  function Round(file: Bytes, seen: Bytes, k: nat, past: Moves): Moves {
    After(After(After(After(past,
      BySender(Sent(DataDatagram(file, k)))),
      ByReceiver(Got(DataDatagram(seen, k)))),
      ByReceiver(Sent(AckDatagram(k)))),
      BySender(Got(AckDatagram(k))))
  }

  // With `seen` the file itself, every datagram arrives at once.
  function Rounds(file: Bytes, seen: Bytes, k: nat): Moves {
    if k == 0 then Start else Round(file, seen, k, Rounds(file, seen, k - 1))
  }

  // Every block of `seen` looks like one of the file sent no later.
  ghost predicate Resembles(seen: Bytes, file: Bytes) {
    && |seen| == |file|
    && forall i :: 1 <= i <= Blocks(file) ==> AmongBlocks(file, i, DataDatagram(seen, i))
  }

  ghost predicate RoundsWorld(t: Transfer, seen: Bytes, k: nat, w: World) {
    && w.sender == Offer(t.file, k)
    && w.receiver == Waiting(seen, k)
    && HasSent(t, k, k, w)
  }

  // The first s blocks and the first r acknowledgements have been sent.
  ghost predicate HasSent(t: Transfer, s: nat, r: nat, w: World) {
    && t.greetings <= w.acks
    && (forall i :: 1 <= i <= s ==> DataDatagram(t.file, i) in w.data)
    && (forall i :: 1 <= i <= r ==> AckDatagram(i) in w.acks)
  }

  predicate Fits(t: Transfer) {
    t.limits.Writing? && !TooLarge(t.limits, |t.file|)
  }

  // A full block is delivered, accepted and acknowledged.
  lemma SenderRound(file: Bytes, k: nat)
    requires 1 <= k < Blocks(file)
    ensures Next(Reading(file), Offer(file, k - 1), Sent(DataDatagram(file, k))) == Some(State(Listening, k - 1, []))
    ensures Next(Reading(file), State(Listening, k - 1, []), Got(AckDatagram(k))) == Some(Offer(file, k))
  {
    hide Parse, Print, Received;
    AckArrives(k);
    LastBlockIsShort(file, k);
  }

  function Acking(file: Bytes, k: nat): State {
    State(Sending(AckDatagram(k), MAX_RETRIES, AckBlock(k == Blocks(file))), k, file[..Min(MAX_DATA_SIZE * k, |file|)])
  }

  function Waiting(file: Bytes, k: nat): State {
    State(Listening, k, file[..Min(MAX_DATA_SIZE * k, |file|)])
  }

  lemma ReceiverRound(t: Transfer, k: nat)
    requires Fits(t) && 1 <= k <= Blocks(t.file)
    ensures Next(t.limits, Waiting(t.file, k - 1), Got(DataDatagram(t.file, k))) == Some(Acking(t.file, k))
    ensures Next(t.limits, Acking(t.file, k), Sent(AckDatagram(k)))
         == Some(if k < Blocks(t.file) then Waiting(t.file, k) else Waiting(t.file, k).(phase := Storing))
  {
    hide Parse, Print, Received, ErrorDatagram;
    DataArrives(t.file, k);
    LastBlockIsShort(t.file, k);
    assert t.file[..Min(MAX_DATA_SIZE * k, |t.file|)]
        == t.file[..Min(MAX_DATA_SIZE * (k - 1), |t.file|)] + Block(t.file, k);
  }

  lemma {:induction false} RoundsReach(t: Transfer, seen: Bytes, k: nat) returns (w: World)
    requires Fits(t) && Resembles(seen, t.file) && k < Blocks(t.file)
    ensures Exec(t, Rounds(t.file, seen, k)) == Some(w) && RoundsWorld(t, seen, k, w)
  {
    hide Next, Parse, Print, DataDatagram, AckDatagram, Block;
    w := Initial(t);
    if k == 0 {
      assert seen[..0] == [];
    } else {
      var before := RoundsReach(t, seen, k - 1);
      SenderRound(t.file, k);
      ReceiverRound(t.(file := seen), k);
      w := World(Offer(t.file, k), Waiting(seen, k),
                 before.data + {DataDatagram(t.file, k)}, before.acks + {AckDatagram(k)});
      var m1 := After(Rounds(t.file, seen, k - 1), BySender(Sent(DataDatagram(t.file, k))));
      var w1 := World(State(Listening, k - 1, []), before.receiver, w.data, before.acks);
      assert Exec(t, m1) == Some(w1);
      var m2 := After(m1, ByReceiver(Got(DataDatagram(seen, k))));
      assert Exec(t, m2) == Some(w1.(receiver := Acking(seen, k)));
      var m3 := After(m2, ByReceiver(Sent(AckDatagram(k))));
      assert Exec(t, m3) == Some(w1.(receiver := Waiting(seen, k), acks := w.acks));
    }
  }

  // The run in which nothing goes wrong.
  lemma HonestReaches(t: Transfer, k: nat) returns (w: World)
    requires Fits(t) && k < Blocks(t.file)
    ensures Exec(t, Rounds(t.file, t.file, k)) == Some(w) && RoundsWorld(t, t.file, k, w)
  {
    hide Exec, DataDatagram;
    w := RoundsReach(t, t.file, k);
  }

  // With more blocks than numbers, an old copy of a full block is taken for the short last one.
  lemma StaleBlockAccepted(t: Transfer)
    requires t.limits.Writing? && Blocks(t.file) > 0x1_0000
    ensures var n := Blocks(t.file);
            var r := Next(t.limits, Waiting(t.file, n - 1), Got(DataDatagram(t.file, n - 0x1_0000)));
            r.Some? && r.value.blocks == n && |r.value.buffer| > |t.file|
  {
    hide Parse, Print, Received, DataDatagram, ErrorDatagram;
    var i := Blocks(t.file) - 0x1_0000;
    DataArrives(t.file, i);
    LastBlockIsShort(t.file, i);
  }

  lemma StaleBlock(t: Transfer) returns (moves: Moves)
    requires Fits(t) && Blocks(t.file) > 0x1_0000
    ensures Exec(t, moves).Some? && !Intact(t.file, Exec(t, moves).value.receiver)
  {
    hide Next, DataDatagram, AckDatagram, Rounds;
    var n := Blocks(t.file);
    var w := HonestReaches(t, n - 1);
    moves := After(Rounds(t.file, t.file, n - 1), ByReceiver(Got(DataDatagram(t.file, n - 0x1_0000))));
    StaleBlockAccepted(t);
  }

  /** Whatever the network does, an upload of at most 65536 blocks can only build up the file. */
  lemma UploadIntact(t: Transfer, moves: Moves)
    requires t.limits.Writing? && Blocks(t.file) <= 0x1_0000 && Exec(t, moves).Some?
    ensures Intact(t.file, Exec(t, moves).value.receiver)
  {
    IntegrityHolds(t, moves);
    ShapeIsIntact(t.file, Exec(t, moves).value.receiver);
  }

  /** Nothing but the file itself is ever handed to the write callback. */
  lemma {:induction false} OnlyTheFileIsStored(t: Transfer, moves: Moves)
    requires t.limits.Writing? && Blocks(t.file) <= 0x1_0000 && Exec(t, moves).Some?
    ensures forall content <- Writes(ReceiverPart(moves)) :: content == t.file
  {
    hide Parse, Print, Received, AfterReceived, AfterSent, Intact;
    match moves
    case Start =>
    case After(past, m) =>
      OnlyTheFileIsStored(t, past);
      UploadIntact(t, past);
      if m.ByReceiver? && m.event.Stored? {
        StoresTheBuffer(t, Exec(t, past).value.receiver, m.event);
      }
  }

  lemma StoresTheBuffer(t: Transfer, r: State, e: Event)
    requires Intact(t.file, r) && e.Stored? && Next(t.limits, r, e).Some?
    ensures e.content == t.file
  {
  }

  /** And that bound is exact: every longer file that both sides admit can be corrupted by the
      network alone, because block numbers repeat. */
  lemma UploadIntactIff(t: Transfer)
    requires Fits(t)
    ensures (forall moves :: Exec(t, moves).Some? ==> Intact(t.file, Exec(t, moves).value.receiver))
       <==> Blocks(t.file) <= 0x1_0000
  {
    if Blocks(t.file) <= 0x1_0000 {
      forall moves | Exec(t, moves).Some?
        ensures Intact(t.file, Exec(t, moves).value.receiver)
      {
        UploadIntact(t, moves);
      }
    } else {
      var moves := StaleBlock(t);
    }
  }

  // ----- Keeping step

  // The only acknowledgement a greeting can be is number 0.
  ghost predicate GreetingsOk(t: Transfer) {
    forall d <- t.greetings :: Received(d).Some? && Received(d).value.Ack? ==> Received(d) == Some(Ack(0))
  }

  ghost predicate ZeroAckUnderWay(t: Transfer) {
    exists d <- t.greetings :: Received(d) == Some(Ack(0))
  }

  // ACK 0 looks like the acknowledgement of block 65536.
  ghost function StepBound(t: Transfer): nat {
    if ZeroAckUnderWay(t) then 0xFFFF else 0x1_0000
  }

  /** The receiver has accepted every acknowledged block and at most one more. */
  predicate InStep(w: World) {
    w.sender.blocks <= w.receiver.blocks <= w.sender.blocks + 1
  }

  // The datagram acknowledges one of the first r blocks.
  ghost predicate AmongAcks(r: nat, datagram: Bytes) {
    exists i :: 1 <= i <= r && datagram == AckDatagram(i)
  }

  ghost predicate AcksFromReceiver(t: Transfer, r: nat, acks: set<Bytes>) {
    forall d <- acks :: d in t.greetings || IsError(d) || AmongAcks(r, d)
  }

  ghost predicate StepInv(t: Transfer, w: World) {
    && IntegrityInv(t, w) && InStep(w)
    && DataFromFile(t.file, Min(w.sender.blocks + 1, Blocks(t.file)), w.data)
    && AcksFromReceiver(t, w.receiver.blocks, w.acks)
  }

  // The sender takes for an acknowledgement only that of a block already accepted.
  lemma GenuineAck(t: Transfer, w: World, datagram: Bytes)
    requires GreetingsOk(t) && Blocks(t.file) <= StepBound(t) && StepInv(t, w)
    requires w.sender.blocks < Blocks(t.file) && datagram in w.acks
    requires Received(datagram) == Some(Ack(Number(w.sender.blocks + 1)))
    ensures w.sender.blocks + 1 <= w.receiver.blocks
  {
    hide Parse, Print, Received, SenderShape, AckDatagram, IsError;
    if IsError(datagram) {
      ErrorIsNoAck(datagram);
    } else if AmongAcks(w.receiver.blocks, datagram) {
      var i :| 1 <= i <= w.receiver.blocks && datagram == AckDatagram(i);
      AckArrives(i);
      NumbersAreUnique(i, w.sender.blocks + 1);
    }
  }

  // The receiver accepts only the block after those it has, and only once it was sent.
  lemma GenuineBlock(t: Transfer, w: World, e: Event)
    requires t.limits.Writing? && Blocks(t.file) <= 0x1_0000 && StepInv(t, w)
    requires e.Got? && e.datagram in w.data && Next(t.limits, w.receiver, e).Some?
    ensures var r := Next(t.limits, w.receiver, e).value.blocks;
            r == w.receiver.blocks || (r == w.receiver.blocks + 1 <= w.sender.blocks + 1)
  {
    hide Parse, Print, Received, SenderShape, DataDatagram;
    var i :| 1 <= i <= Min(w.sender.blocks + 1, Blocks(t.file)) && e.datagram == DataDatagram(t.file, i);
    ReceiverAccepts(t, w.receiver, i);
  }

  lemma StepKept(t: Transfer, w: World, m: Move)
    requires t.limits.Writing? && GreetingsOk(t) && Blocks(t.file) <= StepBound(t)
    requires StepInv(t, w) && Advance(t, w, m).Some?
    ensures StepInv(t, Advance(t, w, m).value)
  {
    hide Next, Parse, Print, Received, DataDatagram, AckDatagram, SenderShape, ReceiverShape, IsError;
    IntegrityKept(t, w, m);
    match m
    case BySender(e) =>
      SenderKeepsShape(t.file, w.sender, e);
      if e.Got? && Received(e.datagram) == Some(Ack(Number(w.sender.blocks + 1))) {
        SenderStillSending(t.file, w.sender, e);
        GenuineAck(t, w, e.datagram);
      }
      if e.Sent? {
        assert AmongBlocks(t.file, w.sender.blocks + 1, e.datagram);
      }
    case ByReceiver(e) =>
      ReceiverKeepsShape(t, w.receiver, e);
      if e.Got? {
        GenuineBlock(t, w, e);
      }
      if e.Sent? && !IsError(e.datagram) {
        assert AmongAcks(w.receiver.blocks, e.datagram);
      }
  }

  lemma SenderStillSending(file: Bytes, s: State, e: Event)
    requires SenderShape(file, s) && e.Got? && Next(Reading(file), s, e).Some?
    ensures s.blocks < Blocks(file)
  {
  }

  lemma {:induction false} StepHolds(t: Transfer, moves: Moves)
    requires t.limits.Writing? && GreetingsOk(t) && Blocks(t.file) <= StepBound(t) && Exec(t, moves).Some?
    ensures StepInv(t, Exec(t, moves).value)
  {
    hide Next, Advance, Parse, Print, DataDatagram;
    match moves
    case Start =>
      assert t.file[..0] == [];
    case After(past, m) =>
      StepHolds(t, past);
      StepKept(t, Exec(t, past).value, m);
  }

  // An old acknowledgement, or ACK 0, is taken for that of a block the receiver does not have.
  lemma StaleAckAccepted(file: Bytes, k: nat, stale: Bytes)
    requires k < Blocks(file) && Received(stale) == Some(Ack(Number(k + 1)))
    ensures Next(Reading(file), Offer(file, k), Sent(DataDatagram(file, k + 1))) == Some(State(Listening, k, []))
    ensures Next(Reading(file), State(Listening, k, []), Got(stale))
         == Some(if k + 1 < Blocks(file) then Offer(file, k + 1) else State(Ended(true), k + 1, []))
  {
    hide Parse, Print, Received;
    LastBlockIsShort(file, k + 1);
  }

  // Beyond the bound, something with the number of the next acknowledgement is under way.
  lemma SomeStaleAck(t: Transfer, s: nat, r: nat, w: World) returns (stale: Bytes)
    requires HasSent(t, s, r, w) && StepBound(t) <= s < r + 0x1_0000
    ensures stale in w.acks && Received(stale) == Some(Ack(Number(s + 1)))
  {
    hide Received, DataDatagram, AckDatagram;
    if s >= 0x1_0000 {
      stale := AckDatagram(s + 1 - 0x1_0000);
      AckArrives(s + 1 - 0x1_0000);
    } else {
      stale :| stale in t.greetings && Received(stale) == Some(Ack(0));
    }
  }

  // The sender sends its next block and takes a stale acknowledgement for the answer.
  function Misled(file: Bytes, k: nat, stale: Bytes, past: Moves): Moves {
    After(After(past, BySender(Sent(DataDatagram(file, k + 1)))), BySender(Got(stale)))
  }

  lemma MisledAdvances(t: Transfer, k: nat, stale: Bytes, past: Moves, w: World)
    requires Exec(t, past) == Some(w) && w.sender == Offer(t.file, k) && k < Blocks(t.file)
    requires stale in w.acks && Received(stale) == Some(Ack(Number(k + 1)))
    ensures Exec(t, Misled(t.file, k, stale, past)) == Some(World(
              if k + 1 < Blocks(t.file) then Offer(t.file, k + 1) else State(Ended(true), k + 1, []),
              w.receiver, w.data + {DataDatagram(t.file, k + 1)}, w.acks))
  {
    hide Next, Parse, Print, Received, DataDatagram, Block;
    StaleAckAccepted(t.file, k, stale);
    assert Exec(t, After(past, BySender(Sent(DataDatagram(t.file, k + 1)))))
        == Some(World(State(Listening, k, []), w.receiver, w.data + {DataDatagram(t.file, k + 1)}, w.acks));
  }

  lemma StaleAck(t: Transfer) returns (moves: Moves)
    requires Fits(t) && Blocks(t.file) > StepBound(t)
    ensures Exec(t, moves).Some? && !InStep(Exec(t, moves).value)
  {
    hide Exec, Received, DataDatagram, AckDatagram, Rounds, Block;
    var k := StepBound(t);
    var w := HonestReaches(t, k);
    var stale := SomeStaleAck(t, k, k, w);
    moves := Misled(t.file, k, stale, Rounds(t.file, t.file, k));
    MisledAdvances(t, k, stale, Rounds(t.file, t.file, k), w);
  }

  /** Sender and receiver keep step in every reachable state exactly when block numbers, and
      ACK 0 if it was the greeting, cannot be confused. */
  lemma InStepIff(t: Transfer)
    requires Fits(t) && GreetingsOk(t)
    ensures (forall moves :: Exec(t, moves).Some? ==> InStep(Exec(t, moves).value))
       <==> Blocks(t.file) <= StepBound(t)
  {
    if Blocks(t.file) <= StepBound(t) {
      forall moves | Exec(t, moves).Some?
        ensures InStep(Exec(t, moves).value)
      {
        StepHolds(t, moves);
      }
    } else {
      var moves := StaleAck(t);
    }
  }

  /** Within that bound, a sender that reports completion is right: the receiver has the file. */
  lemma CompletionIsGenuine(t: Transfer, moves: Moves)
    requires t.limits.Writing? && GreetingsOk(t) && Blocks(t.file) <= StepBound(t) && Exec(t, moves).Some?
    requires Exec(t, moves).value.sender.phase == Ended(true)
    ensures Exec(t, moves).value.receiver.blocks == Blocks(t.file)
    ensures Exec(t, moves).value.receiver.buffer == t.file
  {
    hide Next, Parse, Print, Received;
    StepHolds(t, moves);
    var file := t.file;
    assert file[..Min(MAX_DATA_SIZE * Blocks(file), |file|)] == file;
  }

  // Above it, the sender can report completion while the receiver still waits for the last block.
  lemma FalseCompletion(t: Transfer) returns (moves: Moves)
    requires Fits(t) && Blocks(t.file) > StepBound(t)
    ensures Exec(t, moves).Some? && Exec(t, moves).value.sender.phase == Ended(true)
    ensures Exec(t, moves).value.receiver == Waiting(t.file, Blocks(t.file) - 1)
  {
    hide Exec, Received, DataDatagram, AckDatagram, Rounds, Block;
    var k := Blocks(t.file) - 1;
    var w := HonestReaches(t, k);
    var stale := SomeStaleAck(t, k, k, w);
    moves := Misled(t.file, k, stale, Rounds(t.file, t.file, k));
    MisledAdvances(t, k, stale, Rounds(t.file, t.file, k), w);
  }

  ghost predicate CompletionMeansStored(t: Transfer, w: World) {
    w.sender.phase == Ended(true) ==> w.receiver.blocks == Blocks(t.file) && w.receiver.buffer == t.file
  }

  /** The sender's report of completion can be relied on exactly within that bound. */
  lemma CompletionIff(t: Transfer)
    requires Fits(t) && GreetingsOk(t)
    ensures (forall moves :: Exec(t, moves).Some? ==> CompletionMeansStored(t, Exec(t, moves).value))
       <==> Blocks(t.file) <= StepBound(t)
  {
    hide Exec, Received;
    if Blocks(t.file) <= StepBound(t) {
      forall moves | Exec(t, moves).Some?
        ensures CompletionMeansStored(t, Exec(t, moves).value)
      {
        if Exec(t, moves).value.sender.phase == Ended(true) {
          CompletionIsGenuine(t, moves);
        }
      }
    } else {
      var moves := FalseCompletion(t);
      assert !CompletionMeansStored(t, Exec(t, moves).value);
    }
  }
}
