/**
 What the network of module Network can make the receiver store when there are more blocks than
 block numbers, and exactly when that can only be the file.
 */
module StoredFile {
  import opened Wire
  import opened Codec
  import opened Session
  import opened SessionTheorems
  import opened Network

  const NUMBERS: nat := 0x1_0000

  // A full block is the same as the one that had its number before.
  ghost predicate Repeats(file: Bytes) {
    forall k :: NUMBERS < k < Blocks(file) ==> Block(file, k) == Block(file, k - NUMBERS)
  }

  /** The condition: numbers do not repeat, or they do but the confusion does no harm. The last
      block cannot come too early, earlier blocks are no different from later ones, and a file
      lengthened by one round of numbers is refused. */
  ghost predicate Unmistakable(t: Transfer) {
    || Blocks(t.file) <= NUMBERS
    || (&& Blocks(t.file) <= NUMBERS + StepBound(t)
        && Repeats(t.file)
        && TooLarge(t.limits, |t.file| + MAX_DATA_SIZE * NUMBERS))
  }

  ghost predicate StoresOnlyTheFile(t: Transfer, moves: Moves) {
    forall content <- Writes(ReceiverPart(moves)) :: content == t.file
  }

  // ----- When it is safe

  // The receiver took an old block for the last one; it will run into its size limit.
  predicate Overrun(t: Transfer, r: State) {
    && r.blocks >= Blocks(t.file)
    && match r.phase
       case Sending(d, _, AckBlock(last)) =>
         && d == AckDatagram(r.blocks)
         && if last then TooLarge(t.limits, |r.buffer|) else |r.buffer| == MAX_DATA_SIZE * r.blocks
       case Sending(d, _, Report) => IsError(d)
       case Sending(_, _, _) => false
       case Listening => |r.buffer| == MAX_DATA_SIZE * r.blocks
       case Storing => false
       case Ended(completed) => !completed
  }

  predicate OnCourse(t: Transfer, r: State) {
    ReceiverShape(t.file, r) || Overrun(t, r)
  }

  ghost predicate CourseInv(t: Transfer, w: World) {
    && SenderShape(t.file, w.sender) && OnCourse(t, w.receiver)
    && DataFromFile(t.file, Min(w.sender.blocks + 1, Blocks(t.file)), w.data)
    && AcksFromReceiver(t, w.receiver.blocks, w.acks)
    && (w.receiver.blocks < StepBound(t) ==> w.sender.blocks <= w.receiver.blocks)
  }

  // A block with the expected number and the bytes of the expected block.
  lemma TakesExpected(t: Transfer, r: State, i: nat)
    requires t.limits.Writing? && ReceiverShape(t.file, r) && r.phase.Listening? && 1 <= i <= Blocks(t.file)
    requires Number(i) == Number(r.blocks + 1) && Block(t.file, i) == Block(t.file, r.blocks + 1)
    ensures var r' := AfterReceived(t.limits, r, Received(DataDatagram(t.file, i)));
            ReceiverShape(t.file, r') && r'.blocks == r.blocks + 1
  {
    hide Parse, Print, Received;
    DataArrives(t.file, i);
    LastBlockIsShort(t.file, r.blocks + 1);
    assert t.file[..Min(MAX_DATA_SIZE * (r.blocks + 1), |t.file|)] == r.buffer + Block(t.file, i);
  }

  // An earlier block in place of the last one.
  lemma TakesFullForLast(t: Transfer, r: State, i: nat)
    requires t.limits.Writing? && ReceiverShape(t.file, r) && r.phase.Listening?
    requires r.blocks + 1 == Blocks(t.file) && 1 <= i < Blocks(t.file) && Number(i) == Number(r.blocks + 1)
    ensures var r' := AfterReceived(t.limits, r, Received(DataDatagram(t.file, i)));
            Overrun(t, r') && r'.blocks == r.blocks + 1
  {
    hide Parse, Print, Received;
    DataArrives(t.file, i);
    LastBlockIsShort(t.file, i);
  }

  lemma TakesBeyond(t: Transfer, r: State, i: nat)
    requires t.limits.Writing? && TooLarge(t.limits, |t.file| + MAX_DATA_SIZE * NUMBERS)
    requires Overrun(t, r) && r.phase.Listening? && 1 <= i <= Blocks(t.file) && Number(i) == Number(r.blocks + 1)
    ensures var r' := AfterReceived(t.limits, r, Received(DataDatagram(t.file, i)));
            Overrun(t, r') && r'.blocks == r.blocks + 1
  {
    hide Parse, Print, Received;
    DataArrives(t.file, i);
    LastBlockIsShort(t.file, i);
    if i == Blocks(t.file) {
      assert r.blocks + 1 >= i + NUMBERS;
      assert |Block(t.file, i)| == |t.file| - MAX_DATA_SIZE * (i - 1);
    }
  }

  lemma WrongNumber(t: Transfer, r: State, i: nat)
    requires t.limits.Writing? && OnCourse(t, r) && r.phase.Listening?
    requires Number(i) != Number(r.blocks + 1)
    ensures var r' := AfterReceived(t.limits, r, Received(DataDatagram(t.file, i)));
            OnCourse(t, r') && r'.blocks == r.blocks
  {
    hide Parse, Print, Received;
    DataArrives(t.file, i);
  }

  // Which blocks can have the number of the next one.
  lemma Candidates(t: Transfer, w: World, i: nat)
    requires CourseInv(t, w) && NUMBERS < Blocks(t.file) <= NUMBERS + StepBound(t)
    requires w.receiver.blocks < Blocks(t.file) && 1 <= i <= Min(w.sender.blocks + 1, Blocks(t.file))
    requires Number(i) == Number(w.receiver.blocks + 1)
    ensures i == w.receiver.blocks + 1 || (w.receiver.blocks >= NUMBERS && i == w.receiver.blocks + 1 - NUMBERS)
  {
    hide SenderShape, OnCourse, DataFromFile, AcksFromReceiver, ZeroAckUnderWay;
  }

  lemma CourseReceives(t: Transfer, w: World, i: nat)
    requires t.limits.Writing? && NUMBERS < Blocks(t.file) && Unmistakable(t) && CourseInv(t, w)
    requires w.receiver.phase.Listening? && 1 <= i <= Min(w.sender.blocks + 1, Blocks(t.file))
    ensures var r' := AfterReceived(t.limits, w.receiver, Received(DataDatagram(t.file, i)));
            OnCourse(t, r') && w.receiver.blocks <= r'.blocks <= w.receiver.blocks + 1
  {
    hide AfterReceived, Received, DataDatagram, Block, SenderShape, DataFromFile, AcksFromReceiver, StepBound;
    var r := w.receiver;
    if Number(i) != Number(r.blocks + 1) {
      WrongNumber(t, r, i);
    } else if Overrun(t, r) {
      TakesBeyond(t, r, i);
    } else {
      Candidates(t, w, i);
      if i == r.blocks + 1 || r.blocks + 1 < Blocks(t.file) {
        TakesExpected(t, r, i);
      } else {
        TakesFullForLast(t, r, i);
      }
    }
  }

  // Everything but receiving.
  lemma CourseGoesOn(t: Transfer, r: State, e: Event)
    requires t.limits.Writing? && OnCourse(t, r) && Next(t.limits, r, e).Some? && !e.Got?
    ensures OnCourse(t, Next(t.limits, r, e).value) && Next(t.limits, r, e).value.blocks == r.blocks
    ensures e.Sent? ==> IsError(e.datagram) || (r.blocks > 0 && e.datagram == AckDatagram(r.blocks))
  {
    hide Parse, Print, Received, ErrorDatagram, ReceiverShape, IsError;
    ErrorsAreErrors();
    if ReceiverShape(t.file, r) {
      ReceiverKeepsShape(t, r, e);
    }
  }

  // While the receiver is within the bound, the sender counts only what it has accepted.
  lemma AckWithinBound(t: Transfer, w: World, datagram: Bytes)
    requires GreetingsOk(t) && CourseInv(t, w) && w.receiver.blocks < StepBound(t)
    requires datagram in w.acks && Received(datagram) == Some(Ack(Number(w.sender.blocks + 1)))
    ensures w.sender.blocks + 1 <= w.receiver.blocks
  {
    hide Parse, Print, Received, SenderShape, OnCourse, AckDatagram, IsError, DataFromFile;
    if IsError(datagram) {
      ErrorIsNoAck(datagram);
    } else if AmongAcks(w.receiver.blocks, datagram) {
      var i :| 1 <= i <= w.receiver.blocks && datagram == AckDatagram(i);
      AckArrives(i);
      NumbersAreUnique(i, w.sender.blocks + 1);
    }
  }

  lemma CourseKeptBySender(t: Transfer, w: World, e: Event)
    requires GreetingsOk(t) && CourseInv(t, w) && Advance(t, w, BySender(e)).Some?
    ensures CourseInv(t, Advance(t, w, BySender(e)).value)
  {
    hide Next, Parse, Print, Received, DataDatagram, SenderShape, OnCourse, AcksFromReceiver, StepBound;
    SenderKeepsShape(t.file, w.sender, e);
    if e.Got? && Received(e.datagram) == Some(Ack(Number(w.sender.blocks + 1))) {
      if w.receiver.blocks < StepBound(t) {
        AckWithinBound(t, w, e.datagram);
      }
    }
    if e.Sent? {
      assert AmongBlocks(t.file, w.sender.blocks + 1, e.datagram);
    }
  }

  lemma ListensFor(role: Role, s: State, datagram: Bytes)
    requires Next(role, s, Got(datagram)).Some?
    ensures s.phase.Listening? && Next(role, s, Got(datagram)).value == AfterReceived(role, s, Received(datagram))
  {
  }

  lemma CourseKeptByReceiver(t: Transfer, w: World, e: Event)
    requires t.limits.Writing? && NUMBERS < Blocks(t.file) && Unmistakable(t)
    requires CourseInv(t, w) && Advance(t, w, ByReceiver(e)).Some?
    ensures CourseInv(t, Advance(t, w, ByReceiver(e)).value)
  {
    hide Next, Parse, Print, Received, AfterReceived, DataDatagram, AckDatagram,
         SenderShape, OnCourse, StepBound, IsError;
    if e.Got? {
      ListensFor(t.limits, w.receiver, e.datagram);
      var i :| 1 <= i <= Min(w.sender.blocks + 1, Blocks(t.file)) && e.datagram == DataDatagram(t.file, i);
      CourseReceives(t, w, i);
    } else {
      CourseGoesOn(t, w.receiver, e);
      if e.Sent? && !IsError(e.datagram) {
        assert AmongAcks(w.receiver.blocks, e.datagram);
      }
    }
  }

  lemma {:induction false} CourseHolds(t: Transfer, moves: Moves)
    requires t.limits.Writing? && GreetingsOk(t) && NUMBERS < Blocks(t.file) && Unmistakable(t) && Exec(t, moves).Some?
    ensures CourseInv(t, Exec(t, moves).value)
  {
    hide Next, Advance, Parse, Print, DataDatagram, Received;
    match moves
    case Start =>
      assert t.file[..0] == [];
    case After(past, m) =>
      CourseHolds(t, past);
      match m {
        case BySender(e) => CourseKeptBySender(t, Exec(t, past).value, e);
        case ByReceiver(e) => CourseKeptByReceiver(t, Exec(t, past).value, e);
      }
  }

  lemma WritesAfter(past: Moves, m: Move)
    ensures Writes(ReceiverPart(After(past, m)))
         == Writes(ReceiverPart(past)) + if m.ByReceiver? && m.event.Stored? then [m.event.content] else []
  {
    match m
    case BySender(_) =>
    case ByReceiver(_) =>
  }

  lemma StoredOnCourse(t: Transfer, r: State, e: Event)
    requires OnCourse(t, r) && e.Stored? && Next(t.limits, r, e).Some?
    ensures e.content == t.file
  {
    hide Parse, Print, Received;
    ShapeIsIntact(t.file, r);
  }

  lemma {:induction false} SafeWhenUnmistakable(t: Transfer, moves: Moves)
    requires t.limits.Writing? && GreetingsOk(t) && Unmistakable(t) && Exec(t, moves).Some?
    ensures StoresOnlyTheFile(t, moves)
  {
    hide Next, Parse, Print, Received, OnCourse, StepBound, SenderShape, DataFromFile, AcksFromReceiver;
    if Blocks(t.file) <= NUMBERS {
      OnlyTheFileIsStored(t, moves);
    } else if moves.After? {
      SafeWhenUnmistakable(t, moves.past);
      CourseHolds(t, moves.past);
      WritesAfter(moves.past, moves.move);
      if moves.move.ByReceiver? && moves.move.event.Stored? {
        StoredOnCourse(t, Exec(t, moves.past).value.receiver, moves.move.event);
      }
    }
  }

  // ----- When it is not

  // The receiver takes block i of the file for its block k + 1.
  lemma Feed(t: Transfer, past: Moves, w: World, i: nat) returns (moves: Moves, after: World)
    requires Exec(t, past) == Some(w) && t.limits.Writing? && w.receiver.phase.Listening?
    requires 1 <= i <= Blocks(t.file) && DataDatagram(t.file, i) in w.data
    requires Number(i) == Number(w.receiver.blocks + 1)
    requires !TooLarge(t.limits, |w.receiver.buffer + Block(t.file, i)|)
    ensures Exec(t, moves) == Some(after) && Writes(ReceiverPart(moves)) == Writes(ReceiverPart(past))
    ensures after.sender == w.sender && after.data == w.data
    ensures after.acks == w.acks + {AckDatagram(w.receiver.blocks + 1)}
    ensures after.receiver == State(if i < Blocks(t.file) then Listening else Storing,
                                    w.receiver.blocks + 1, w.receiver.buffer + Block(t.file, i))
  {
    hide Next, Block, DataDatagram, AckDatagram;
    var k := w.receiver.blocks + 1;
    FedBlock(t, w.receiver, i);
    var acking := Next(t.limits, w.receiver, Got(DataDatagram(t.file, i))).value;
    var taken := After(past, ByReceiver(Got(DataDatagram(t.file, i))));
    assert Exec(t, taken) == Some(w.(receiver := acking));
    moves := After(taken, ByReceiver(Sent(AckDatagram(k))));
    after := World(w.sender, Next(t.limits, acking, Sent(AckDatagram(k))).value, w.data, w.acks + {AckDatagram(k)});
  }

  lemma FedBlock(t: Transfer, r: State, i: nat)
    requires t.limits.Writing? && r.phase.Listening? && 1 <= i <= Blocks(t.file)
    requires Number(i) == Number(r.blocks + 1) && !TooLarge(t.limits, |r.buffer + Block(t.file, i)|)
    ensures var acking := Next(t.limits, r, Got(DataDatagram(t.file, i)));
            && acking.Some?
            && Next(t.limits, acking.value, Sent(AckDatagram(r.blocks + 1)))
            == Some(State(if i < Blocks(t.file) then Listening else Storing, r.blocks + 1, r.buffer + Block(t.file, i)))
  {
    hide Parse, Print, Received, Block, ErrorDatagram;
    DataArrives(t.file, i);
    LastBlockIsShort(t.file, i);
  }

  // The last block arrives and the write callback succeeds.
  lemma Finish(t: Transfer, past: Moves, w: World) returns (moves: Moves, after: World)
    requires Exec(t, past) == Some(w) && t.limits.Writing? && w.receiver.phase.Listening?
    requires DataDatagram(t.file, Blocks(t.file)) in w.data
    requires Number(Blocks(t.file)) == Number(w.receiver.blocks + 1)
    requires !TooLarge(t.limits, |w.receiver.buffer + Block(t.file, Blocks(t.file))|)
    ensures Exec(t, moves) == Some(after) && after.receiver.phase == Ended(true)
    ensures after.sender == w.sender && AckDatagram(w.receiver.blocks + 1) in after.acks
    ensures Writes(ReceiverPart(moves))
         == Writes(ReceiverPart(past)) + [w.receiver.buffer + Block(t.file, Blocks(t.file))]
  {
    hide Parse, Print, Block, DataDatagram, AckDatagram, Received, ErrorDatagram;
    var fed, full := Feed(t, past, w, Blocks(t.file));
    moves := After(fed, ByReceiver(Stored(full.receiver.buffer, true)));
    after := full.(receiver := full.receiver.(phase := Ended(true)));
  }

  lemma Sends(t: Transfer, past: Moves, w: World, k: nat) returns (moves: Moves, after: World)
    requires Exec(t, past) == Some(w) && w.sender == Offer(t.file, k) && k < Blocks(t.file)
    ensures Exec(t, moves) == Some(after) && Writes(ReceiverPart(moves)) == Writes(ReceiverPart(past))
    ensures after == w.(sender := State(Listening, k, []), data := w.data + {DataDatagram(t.file, k + 1)})
  {
    hide Parse, Print, Block, DataDatagram;
    moves := After(past, BySender(Sent(DataDatagram(t.file, k + 1))));
    after := w.(sender := State(Listening, k, []), data := w.data + {DataDatagram(t.file, k + 1)});
  }

  lemma {:induction false} RoundsWriteNothing(file: Bytes, seen: Bytes, k: nat)
    ensures Writes(ReceiverPart(Rounds(file, seen, k))) == []
  {
    hide DataDatagram, AckDatagram;
    if k > 0 {
      RoundsWriteNothing(file, seen, k - 1);
      var sent := After(Rounds(file, seen, k - 1), BySender(Sent(DataDatagram(file, k))));
      var taken := After(sent, ByReceiver(Got(DataDatagram(seen, k))));
      WritesAfter(sent, taken.move);
      WritesAfter(taken, ByReceiver(Sent(AckDatagram(k))));
    }
  }

  // -- An earlier block in the middle

  lemma LastBlockKept(seen: Bytes, file: Bytes)
    requires Resembles(seen, file)
    ensures Block(seen, Blocks(file)) == Block(file, Blocks(file))
  {
    hide Received, DataDatagram, Block;
    var n := Blocks(file);
    var i :| 1 <= i <= n && DataDatagram(seen, n) == DataDatagram(file, i);
    DataArrives(seen, n);
    DataArrives(file, i);
    LastBlockIsShort(seen, n);
    LastBlockIsShort(file, i);
  }

  /** Whatever is made of blocks sent earlier under the same numbers can be stored in place of the
      file, and both sides take the transfer for completed. */
  lemma ForgedUpload(t: Transfer, seen: Bytes) returns (moves: Moves)
    requires Fits(t) && Resembles(seen, t.file)
    ensures Exec(t, moves).Some? && Writes(ReceiverPart(moves)) == [seen]
    ensures Exec(t, moves).value.sender.phase == Ended(true) && Exec(t, moves).value.receiver.phase == Ended(true)
  {
    hide Next, Rounds, Received, Block, DataDatagram, AckDatagram;
    var n := Blocks(t.file);
    var w := RoundsReach(t, seen, n - 1);
    var sent, w1 := Sends(t, Rounds(t.file, seen, n - 1), w, n - 1);
    LastBlockKept(seen, t.file);
    LastBlockCompletes(seen);
    var stored, w2 := Finish(t, sent, w1);
    moves := After(stored, BySender(Got(AckDatagram(n))));
    AckArrives(n);
    StaleAckAccepted(t.file, n - 1, AckDatagram(n));
    RoundsWriteNothing(t.file, seen, n - 1);
  }

  lemma LastBlockCompletes(file: Bytes)
    ensures file[..Min(MAX_DATA_SIZE * (Blocks(file) - 1), |file|)] + Block(file, Blocks(file)) == file
  {
  }

  // The file with block k replaced by the block that had its number before.
  function Swapped(file: Bytes, k: nat): Bytes
    requires NUMBERS < k < Blocks(file)
  {
    file[..MAX_DATA_SIZE * (k - 1)] + Block(file, k - NUMBERS) + file[MAX_DATA_SIZE * k..]
  }

  // A slice of a sequence with its middle replaced.
  lemma SliceOfReplaced(left: Bytes, middle: Bytes, right: Bytes, from: nat, to: nat)
    requires from <= to <= |left| + |middle| + |right|
    ensures to <= |left| ==> (left + middle + right)[from..to] == left[from..to]
    ensures from == |left| && to == from + |middle| ==> (left + middle + right)[from..to] == middle
    ensures from >= |left| + |middle| ==>
              (left + middle + right)[from..to] == right[from - |left| - |middle|..to - |left| - |middle|]
  {
  }

  lemma SwappedBlock(file: Bytes, k: nat, i: nat)
    requires NUMBERS < k < Blocks(file) && 1 <= i <= Blocks(file)
    ensures |Swapped(file, k)| == |file|
    ensures Block(Swapped(file, k), i) == Block(file, if i == k then k - NUMBERS else i)
  {
    var from, to := MAX_DATA_SIZE * (i - 1), Min(MAX_DATA_SIZE * i, |file|);
    var left, middle, right := file[..MAX_DATA_SIZE * (k - 1)], Block(file, k - NUMBERS), file[MAX_DATA_SIZE * k..];
    LastBlockIsShort(file, k - NUMBERS);
    SliceOfReplaced(left, middle, right, from, to);
    if i > k {
      assert right[from - MAX_DATA_SIZE * k..to - MAX_DATA_SIZE * k] == file[from..to];
    }
  }

  lemma SwappedResembles(file: Bytes, k: nat)
    requires NUMBERS < k < Blocks(file)
    ensures Resembles(Swapped(file, k), file)
  {
    hide Block, Print, Swapped;
    var seen := Swapped(file, k);
    SwappedBlock(file, k, k);
    forall i | 1 <= i <= Blocks(file)
      ensures AmongBlocks(file, i, DataDatagram(seen, i))
    {
      SwappedBlock(file, k, i);
      assert DataDatagram(seen, i) == DataDatagram(file, if i == k then k - NUMBERS else i);
    }
  }

  /** An old block in the middle: the transfer completes on both sides with another file stored. */
  lemma WrongFileStored(t: Transfer, k: nat) returns (moves: Moves)
    requires Fits(t) && NUMBERS < k < Blocks(t.file) && Block(t.file, k) != Block(t.file, k - NUMBERS)
    ensures Exec(t, moves).Some? && Writes(ReceiverPart(moves)) == [Swapped(t.file, k)] != [t.file]
    ensures Exec(t, moves).value.sender.phase == Ended(true) && Exec(t, moves).value.receiver.phase == Ended(true)
  {
    hide Exec, Block, Swapped, Resembles;
    SwappedResembles(t.file, k);
    SwappedBlock(t.file, k, k);
    moves := ForgedUpload(t, Swapped(t.file, k));
    assert [Swapped(t.file, k)][0] != [t.file][0];
  }

  // -- The last block too early

  // Old acknowledgements carry the sender on while the receiver stays at r blocks.
  lemma {:induction false} Race(t: Transfer, r: nat, s: nat) returns (moves: Moves, w: World)
    requires Fits(t) && StepBound(t) <= r <= s < Blocks(t.file) && s <= r + NUMBERS
    ensures Exec(t, moves) == Some(w) && Writes(ReceiverPart(moves)) == []
    ensures w.sender == Offer(t.file, s) && w.receiver == Waiting(t.file, r) && HasSent(t, s, r, w)
    decreases s
  {
    hide Exec, Parse, Print, Received, Block, DataDatagram, AckDatagram, Rounds, StepBound;
    if s == r {
      w := HonestReaches(t, r);
      moves := Rounds(t.file, t.file, r);
      RoundsWriteNothing(t.file, t.file, r);
    } else {
      var past, before := Race(t, r, s - 1);
      var stale := SomeStaleAck(t, s - 1, r, before);
      moves := Misled(t.file, s - 1, stale, past);
      MisledAdvances(t, s - 1, stale, past, before);
      w := Exec(t, moves).value;
    }
  }

  /** The last block, sent 65536 blocks ahead, ends the upload early and a shorter file is stored. */
  lemma TruncatedUpload(t: Transfer) returns (moves: Moves, content: Bytes)
    requires Fits(t) && Blocks(t.file) > NUMBERS + StepBound(t)
    ensures Exec(t, moves).Some? && Exec(t, moves).value.receiver.phase == Ended(true)
    ensures Writes(ReceiverPart(moves)) == [content] && |content| == |t.file| - MAX_DATA_SIZE * NUMBERS
  {
    hide Exec, Received, Block, DataDatagram, AckDatagram, StepBound;
    var n := Blocks(t.file);
    var r := n - NUMBERS - 1;
    var raced, w := Race(t, r, n - 1);
    var sent, w1 := Sends(t, raced, w, n - 1);
    LastBlockSize(t.file);
    content := w1.receiver.buffer + Block(t.file, n);
    var after;
    moves, after := Finish(t, sent, w1);
  }

  lemma LastBlockSize(file: Bytes)
    ensures |Block(file, Blocks(file))| == |file| - MAX_DATA_SIZE * (Blocks(file) - 1)
  {
  }

  // -- The last block too late

  // Old blocks carry the receiver m blocks past the end.
  lemma {:induction false} Lengthen(t: Transfer, m: nat) returns (moves: Moves, w: World)
    requires Fits(t) && Blocks(t.file) > NUMBERS >= m
    requires !TooLarge(t.limits, |t.file| + MAX_DATA_SIZE * NUMBERS)
    ensures Exec(t, moves) == Some(w) && Writes(ReceiverPart(moves)) == []
    ensures w.receiver.phase.Listening? && w.receiver.blocks == Blocks(t.file) - 1 + m
    ensures |w.receiver.buffer| == MAX_DATA_SIZE * w.receiver.blocks
    ensures forall i :: 1 <= i <= Blocks(t.file) ==> DataDatagram(t.file, i) in w.data
  {
    hide Exec, Parse, Print, Received, Block, DataDatagram, AckDatagram, Rounds;
    var n := Blocks(t.file);
    if m == 0 {
      var before := HonestReaches(t, n - 1);
      moves, w := Sends(t, Rounds(t.file, t.file, n - 1), before, n - 1);
      RoundsWriteNothing(t.file, t.file, n - 1);
    } else {
      var past, before := Lengthen(t, m - 1);
      LastBlockIsShort(t.file, n + m - 1 - NUMBERS);
      moves, w := Feed(t, past, before, n + m - 1 - NUMBERS);
    }
  }

  /** An old block in place of the last one: a file longer by 65536 blocks is stored, if it fits. */
  lemma LengthenedUpload(t: Transfer) returns (moves: Moves, content: Bytes)
    requires Fits(t) && Blocks(t.file) > NUMBERS && !TooLarge(t.limits, |t.file| + MAX_DATA_SIZE * NUMBERS)
    ensures Exec(t, moves).Some? && Exec(t, moves).value.receiver.phase == Ended(true)
    ensures Writes(ReceiverPart(moves)) == [content] && |content| == |t.file| + MAX_DATA_SIZE * NUMBERS
  {
    hide Exec, Received, Block, DataDatagram, AckDatagram;
    var past, w := Lengthen(t, NUMBERS);
    LastBlockSize(t.file);
    content := w.receiver.buffer + Block(t.file, Blocks(t.file));
    var after;
    moves, after := Finish(t, past, w);
  }

  lemma UnsafeOtherwise(t: Transfer) returns (moves: Moves)
    requires Fits(t) && !Unmistakable(t)
    ensures Exec(t, moves).Some? && !StoresOnlyTheFile(t, moves)
  {
    hide Exec, Block, StepBound;
    var content;
    if Blocks(t.file) > NUMBERS + StepBound(t) {
      moves, content := TruncatedUpload(t);
    } else if !TooLarge(t.limits, |t.file| + MAX_DATA_SIZE * NUMBERS) {
      moves, content := LengthenedUpload(t);
    } else {
      var k :| NUMBERS < k < Blocks(t.file) && Block(t.file, k) != Block(t.file, k - NUMBERS);
      moves := WrongFileStored(t, k);
      content := Swapped(t.file, k);
    }
    assert content in Writes(ReceiverPart(moves)) && content != t.file;
  }

  /** The network can make the receiver store something else exactly when the condition fails. */
  lemma OnlyTheFileIsStoredIff(t: Transfer)
    requires Fits(t) && GreetingsOk(t)
    ensures (forall moves :: Exec(t, moves).Some? ==> StoresOnlyTheFile(t, moves)) <==> Unmistakable(t)
  {
    hide Exec, StoresOnlyTheFile, Unmistakable;
    if Unmistakable(t) {
      forall moves | Exec(t, moves).Some?
        ensures StoresOnlyTheFile(t, moves)
      {
        SafeWhenUnmistakable(t, moves);
      }
    } else {
      var moves := UnsafeOtherwise(t);
    }
  }
}
