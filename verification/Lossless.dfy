/**
 The same two loops joined by a channel that delivers every datagram exactly once, for files of
 any admitted size: block numbers may wrap around any number of times.
 */
module Lossless {
  import opened Wire
  import opened Codec
  import opened Session
  import opened SessionTheorems
  import opened Network

  // data, acks: datagrams sent and not yet delivered.
  datatype Link = Link(sender: State, receiver: State, data: multiset<Bytes>, acks: multiset<Bytes>)

  // Sends succeed, every datagram is consumed by its delivery, and nothing times out.
  function Deliver(t: Transfer, w: Link, m: Move): Option<Link> {
    var e := m.event;
    if !e.Sent? && !e.Got? then None
    else if m.BySender? then
      if e.Got? && e.datagram !in w.acks then None else
        match Next(Reading(t.file), w.sender, e)
        case None => None
        case Some(s) =>
          Some(if e.Sent? then w.(sender := s, data := w.data + multiset{e.datagram})
               else w.(sender := s, acks := w.acks - multiset{e.datagram}))
    else
      if e.Got? && e.datagram !in w.data then None else
        match Next(t.limits, w.receiver, e)
        case None => None
        case Some(r) =>
          Some(if e.Sent? then w.(receiver := r, acks := w.acks + multiset{e.datagram})
               else w.(receiver := r, data := w.data - multiset{e.datagram}))
  }

  function Run(t: Transfer, moves: Moves): Option<Link> {
    match moves
    case Start => Some(Link(Offer(t.file, 0), Idle(), multiset{}, multiset{}))
    case After(past, m) =>
      match Run(t, past)
      case None => None
      case Some(w) => Deliver(t, w, m)
  }

  function Count(moves: Moves): nat {
    if moves.Start? then 0 else Count(moves.past) + 1
  }

  // ----- The only possible course of events

  function AfterAck(file: Bytes, k: nat): State {
    if k < Blocks(file) then Waiting(file, k) else Waiting(file, k).(phase := Storing)
  }

  // The state after n moves: four moves make a round.
  function AtMove(t: Transfer, n: nat): Link
  {
    var k := n / 4;
    var listening := State(Listening, k, []);
    if k >= Blocks(t.file) then
      Link(State(Ended(true), k, []), AfterAck(t.file, k), multiset{}, multiset{})
    else if n % 4 == 0 then
      Link(Offer(t.file, k), Waiting(t.file, k), multiset{}, multiset{})
    else if n % 4 == 1 then
      Link(listening, Waiting(t.file, k), multiset{DataDatagram(t.file, k + 1)}, multiset{})
    else if n % 4 == 2 then
      Link(listening, Acking(t.file, k + 1), multiset{}, multiset{})
    else
      Link(listening, AfterAck(t.file, k + 1), multiset{}, multiset{AckDatagram(k + 1)})
  }

  // The move made after n others.
  function MoveAt(t: Transfer, n: nat): Move {
    var k := n / 4 + 1;
    if n % 4 == 0 then BySender(Sent(DataDatagram(t.file, k)))
    else if n % 4 == 1 then ByReceiver(Got(DataDatagram(t.file, k)))
    else if n % 4 == 2 then ByReceiver(Sent(AckDatagram(k)))
    else BySender(Got(AckDatagram(k)))
  }

  lemma FinalRound(file: Bytes)
    ensures Next(Reading(file), State(Listening, Blocks(file) - 1, []), Got(AckDatagram(Blocks(file))))
         == Some(State(Ended(true), Blocks(file), []))
    ensures Next(Reading(file), Offer(file, Blocks(file) - 1), Sent(DataDatagram(file, Blocks(file))))
         == Some(State(Listening, Blocks(file) - 1, []))
  {
    hide Parse, Print, Received;
    AckArrives(Blocks(file));
    LastBlockIsShort(file, Blocks(file));
  }

  lemma MoveWorks(t: Transfer, n: nat)
    requires Fits(t) && n < 4 * Blocks(t.file)
    ensures Deliver(t, AtMove(t, n), MoveAt(t, n)) == Some(AtMove(t, n + 1))
  {
    hide Next, DataDatagram, AckDatagram, Acking, Waiting, Offer, Blocks;
    var k := n / 4 + 1;
    assert if n % 4 == 3 then (n + 1) / 4 == k && (n + 1) % 4 == 0
           else (n + 1) / 4 == n / 4 && (n + 1) % 4 == n % 4 + 1;
    var d, a := DataDatagram(t.file, k), AckDatagram(k);
    assert multiset{} + multiset{d} == multiset{d} && multiset{d} - multiset{d} == multiset{};
    assert multiset{} + multiset{a} == multiset{a} && multiset{a} - multiset{a} == multiset{};
    ReceiverRound(t, k);
    if k < Blocks(t.file) {
      SenderRound(t.file, k);
    } else {
      FinalRound(t.file);
    }
  }

  // What a session can do, short of failing, is set by its phase.
  lemma OnlyEvent(role: Role, s: State, e: Event)
    requires Next(role, s, e).Some? && (e.Sent? || e.Got?)
    ensures e.Sent? ==> s.phase.Sending? && e.datagram == s.phase.datagram
    ensures e.Got? ==> s.phase.Listening?
  {
  }

  lemma OnlyMove(t: Transfer, n: nat, m: Move)
    requires Fits(t) && n <= 4 * Blocks(t.file) && Deliver(t, AtMove(t, n), m).Some?
    ensures n < 4 * Blocks(t.file) && m == MoveAt(t, n)
  {
    hide Next, DataDatagram, AckDatagram, Blocks;
    if m.BySender? {
      OnlyEvent(Reading(t.file), AtMove(t, n).sender, m.event);
    } else {
      OnlyEvent(t.limits, AtMove(t, n).receiver, m.event);
    }
  }

  lemma RunStarts(t: Transfer)
    ensures Run(t, Start) == Some(AtMove(t, 0))
  {
    hide Next, Parse, Print, DataDatagram, AckDatagram;
    assert t.file[..0] == [];
  }

  /** There is exactly one course of events, whatever the scheduling. */
  lemma {:induction false} RunIsLockstep(t: Transfer, moves: Moves)
    requires Fits(t) && Run(t, moves).Some?
    ensures Count(moves) <= 4 * Blocks(t.file)
    ensures Run(t, moves).value == AtMove(t, Count(moves))
  {
    hide Deliver, AtMove, MoveAt;
    match moves
    case Start => RunStarts(t);
    case After(past, m) =>
      RunIsLockstep(t, past);
      OnlyMove(t, Count(past), m);
      MoveWorks(t, Count(past));
  }

  /** Every run can be continued until both loops finish; that takes exactly
      floor(n/512) + 1 rounds of four moves, and then the receiver holds the file. */
  lemma TransferCompletes(t: Transfer, moves: Moves)
    requires Fits(t) && Run(t, moves).Some?
    ensures Count(moves) < 4 * Blocks(t.file) ==> exists m :: Deliver(t, Run(t, moves).value, m).Some?
    ensures Count(moves) == 4 * Blocks(t.file) <==> Run(t, moves).value.sender.phase == Ended(true)
    ensures Count(moves) == 4 * Blocks(t.file) ==>
              var w := Run(t, moves).value;
              && w.sender == State(Ended(true), Blocks(t.file), [])
              && w.receiver == State(Storing, Blocks(t.file), t.file)
              && w.data == w.acks == multiset{}
  {
    hide Next, Deliver, Parse, Print, MoveAt;
    RunIsLockstep(t, moves);
    if Count(moves) < 4 * Blocks(t.file) {
      MoveWorks(t, Count(moves));
    }
    var file := t.file;
    assert file[..Min(MAX_DATA_SIZE * Blocks(file), |file|)] == file;
  }
}
