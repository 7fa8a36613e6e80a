/**
 The block transfer protocol as an automaton over observable events.

 A session is one run of HandleReadRequest (role Reading) or HandleWriteRequest (role Writing)
 of src/internal/tftp_server_impl.cpp seen from outside: every sendto, every receive and the
 write callback is an event. Block counts here are unbounded; only the datagrams carry the
 16-bit number. Module Handlers proves that the imperative handlers, with their wrapping
 counters and byte offsets, produce exactly the traces of this automaton.
 */
module Session {
  import opened Wire
  import opened Codec

  datatype Event =
    | Sent(datagram: Bytes)               // sendto took the whole datagram
    | Lost(datagram: Bytes)               // sendto failed or was cut short
    | Got(datagram: Bytes)                // recvfrom returned a datagram
    | Silence                             // select timed out, or select or recvfrom failed
    | Stored(content: Bytes, ok: bool)    // the write callback ran

  // Events in the order they happened, the latest outermost.
  datatype Trace = Begin | Then(past: Trace, event: Event)

  const MAX_RETRIES: nat := 5
  const ERROR_RETRIES: nat := 25 // five rounds of MAX_RETRIES

  // ----- Datagrams

  function Number(i: nat): U16 {
    i % 0x1_0000
  }

  // Blocks in a transfer: the last one is short, and empty when 512 divides the size.
  function Blocks(file: Bytes): nat {
    |file| / MAX_DATA_SIZE + 1
  }

  function Min(a: nat, b: nat): nat {
    if a <= b then a else b
  }

  // The i-th block of a file, counting from 1.
  function Block(file: Bytes, i: nat): (block: Bytes)
    ensures |block| <= MAX_DATA_SIZE
  {
    if 1 <= i && MAX_DATA_SIZE * (i - 1) <= |file|
    then file[MAX_DATA_SIZE * (i - 1)..Min(MAX_DATA_SIZE * i, |file|)]
    else []
  }

  function DataDatagram(file: Bytes, i: nat): Bytes {
    Print(Data(Number(i), Block(file, i)), [])
  }

  function AckDatagram(i: nat): Bytes {
    Print(Ack(Number(i)), [])
  }

  function Ascii(s: string): Bytes {
    seq(|s|, i requires 0 <= i < |s| => if s[i] < 128 as char then s[i] as int else 63)
  }

  function ErrorDatagram(code: U16, message: string): Bytes {
    Print(Error(code, Ascii(message)), [])
  }

  // recvfrom cuts a datagram to the buffer; an unreadable one counts as nothing received.
  function Received(datagram: Bytes): Option<Packet> {
    Parse(if |datagram| > MAX_PACKET_SIZE then datagram[..MAX_PACKET_SIZE] else datagram)
  }

  // ----- The automaton

  datatype Role =
    | Reading(file: Bytes)
    | Writing(maxSize: nat, sizeLimit: Option<nat>) // sizeLimit: announced size plus one block

  datatype Goal = AwaitAck | BeginReceiving | AckBlock(last: bool) | Report

  datatype Phase =
    | Sending(datagram: Bytes, left: nat, goal: Goal) // `left` sendto calls remain
    | Listening
    | Storing
    | Ended(completed: bool)

  // blocks: acknowledged (Reading) or accepted (Writing); buffer: the data received so far.
  datatype State = State(phase: Phase, blocks: nat, buffer: Bytes)

  function Refuse(s: State, code: U16, message: string): State {
    s.(phase := Sending(ErrorDatagram(code, message), ERROR_RETRIES, Report))
  }

  function Offer(file: Bytes, acked: nat): State {
    State(Sending(DataDatagram(file, acked + 1), MAX_RETRIES, AwaitAck), acked, [])
  }

  predicate TooLarge(role: Role, size: nat) {
    role.Writing? && (size > role.maxSize || (role.sizeLimit.Some? && size > role.sizeLimit.value))
  }

  function AfterSent(role: Role, s: State, goal: Goal): State {
    match goal
    case AwaitAck => s.(phase := Listening)
    case BeginReceiving => s.(phase := Listening)
    case AckBlock(last) =>
      if role.Writing? && |s.buffer| > role.maxSize then Refuse(s, 3, "File size too large")
      else if TooLarge(role, |s.buffer|) then Refuse(s, 3, "File size exceeds tsize")
      else s.(phase := if last then Storing else Listening)
    case Report => s.(phase := Ended(false))
  }

  function AfterReceived(role: Role, s: State, packet: Option<Packet>): State {
    var expected := Number(s.blocks + 1);
    match role
    case Reading(file) =>
      if packet == Some(Ack(expected)) then
        if |Block(file, s.blocks + 1)| < MAX_DATA_SIZE
        then s.(phase := Ended(true), blocks := s.blocks + 1)
        else Offer(file, s.blocks + 1)
      else s.(phase := Ended(false))
    case Writing(_, _) =>
      if packet == None then s.(phase := Ended(false))
      else if !packet.value.Data? then Refuse(s, 4, "Illegal operation")
      else if packet.value.block != expected then s.(phase := Ended(false))
      else
        var payload := packet.value.payload;
        State(Sending(AckDatagram(s.blocks + 1), MAX_RETRIES, AckBlock(|payload| < MAX_DATA_SIZE)),
              s.blocks + 1, s.buffer + payload)
  }

  // One event; None when the session cannot do this now.
  function Next(role: Role, s: State, e: Event): Option<State> {
    match s.phase
    case Sending(datagram, left, goal) =>
      if e == Sent(datagram) then Some(AfterSent(role, s, goal))
      else if e == Lost(datagram) then
        Some(s.(phase := if left > 1 then Sending(datagram, left - 1, goal) else Ended(false)))
      else None
    case Listening =>
      if e.Silence? then Some(s.(phase := Ended(false)))
      else if e.Got? then Some(AfterReceived(role, s, Received(e.datagram)))
      else None
    case Storing =>
      if !e.Stored? || e.content != s.buffer then None
      else Some(if e.ok then s.(phase := Ended(true)) else Refuse(s, 2, "File write failed"))
    case Ended(_) => None
  }

  function Idle(): State {
    State(Listening, 0, [])
  }

  // HandleReadRequest after the read callback.
  function ReadStart(readOk: bool, file: Bytes, maxSize: nat): State {
    if !readOk then Refuse(Idle(), 1, "File not found")
    else if |file| > maxSize then Refuse(Idle(), 3, "File size too large")
    else Offer(file, 0)
  }

  // HandleWriteRequest: one attempt for an OACK, the usual retries for ACK 0.
  function WriteStart(oack: Option<Bytes>): State {
    match oack
    case Some(datagram) => State(Sending(datagram, 1, BeginReceiving), 0, [])
    case None => State(Sending(AckDatagram(0), MAX_RETRIES, BeginReceiving), 0, [])
  }

  function Replay(role: Role, start: State, trace: Trace): (r: Option<State>) {
    match trace
    case Begin => Some(start)
    case Then(past, e) =>
      match Replay(role, start, past)
      case None => None
      case Some(s) => Next(role, s, e)
  }

  // One trace followed by another.
  function Follow(first: Trace, rest: Trace): Trace {
    match rest
    case Begin => first
    case Then(past, e) => Then(Follow(first, past), e)
  }

  lemma {:induction false} ReplayFollow(role: Role, start: State, first: Trace, rest: Trace)
    requires Replay(role, start, first).Some?
    ensures Replay(role, start, Follow(first, rest)) == Replay(role, Replay(role, start, first).value, rest)
  {
    if rest.Then? {
      ReplayFollow(role, start, first, rest.past);
    }
  }

  // ----- What a trace contains

  function Attempts(trace: Trace): nat {
    match trace
    case Begin => 0
    case Then(past, e) => Attempts(past) + if e.Sent? || e.Lost? then 1 else 0
  }

  function Receptions(trace: Trace): nat {
    match trace
    case Begin => 0
    case Then(past, e) => Receptions(past) + if e.Got? || e.Silence? then 1 else 0
  }

  // The datagrams that left, in order.
  function Delivered(trace: Trace): seq<Bytes> {
    match trace
    case Begin => []
    case Then(past, e) => if e.Sent? then Delivered(past) + [e.datagram] else Delivered(past)
  }

  // The datagrams that arrived, in order.
  function Arrived(trace: Trace): seq<Bytes> {
    match trace
    case Begin => []
    case Then(past, e) => if e.Got? then Arrived(past) + [e.datagram] else Arrived(past)
  }

  // The files handed to the write callback, in order.
  function Writes(trace: Trace): seq<Bytes> {
    match trace
    case Begin => []
    case Then(past, e) => if e.Stored? then Writes(past) + [e.content] else Writes(past)
  }

  // ----- Environments

  // The outside world: the result of every sendto, of every receive, and of the write callback.
  datatype Env = Env(sendOk: nat -> bool, receive: nat -> Option<Bytes>, store: Bytes -> bool)

  function Reception(env: Env, n: nat): Event {
    match env.receive(n)
    case None => Silence
    case Some(datagram) => Got(datagram)
  }

  // The event an environment allows next, given which kind of operation the session performs.
  predicate Allows(env: Env, before: Trace, e: Event) {
    match e
    case Sent(_) => env.sendOk(Attempts(before))
    case Lost(_) => !env.sendOk(Attempts(before))
    case Got(_) => e == Reception(env, Receptions(before))
    case Silence => e == Reception(env, Receptions(before))
    case Stored(content, ok) => ok == env.store(content)
  }

  predicate Agrees(env: Env, trace: Trace) {
    match trace
    case Begin => true
    case Then(past, e) => Agrees(env, past) && Allows(env, past, e)
  }

  // A finished run of a session in an environment.
  predicate IsRun(role: Role, start: State, env: Env, trace: Trace) {
    && Agrees(env, trace)
    && Replay(role, start, trace).Some?
    && Replay(role, start, trace).value.phase.Ended?
  }

  // `t` is an initial part of `u`.
  predicate Prefix(t: Trace, u: Trace) {
    t == u || (u.Then? && Prefix(t, u.past))
  }

  lemma {:induction false} PrefixTransitive(t: Trace, u: Trace, v: Trace)
    requires Prefix(t, u) && Prefix(u, v)
    ensures Prefix(t, v)
  {
    if u != v {
      PrefixTransitive(t, u, v.past);
    }
  }

  lemma SameEvent(role: Role, s: State, env: Env, before: Trace, e: Event, f: Event)
    requires Next(role, s, e).Some? && Allows(env, before, e)
    requires Next(role, s, f).Some? && Allows(env, before, f)
    ensures e == f
  {
  }

  // A trace strictly inside a replayed one is in a state that can still move.
  lemma {:induction false} StrictPrefix(role: Role, start: State, env: Env, t: Trace, u: Trace) returns (e: Event)
    requires Prefix(t, u) && t != u && Replay(role, start, u).Some? && Agrees(env, u)
    ensures Replay(role, start, t).Some? && Next(role, Replay(role, start, t).value, e).Some? && Allows(env, t, e)
    ensures Prefix(Then(t, e), u)
  {
    if t == u.past {
      e := u.event;
    } else {
      e := StrictPrefix(role, start, env, t, u.past);
    }
  }

  // Two replays in the same environment: one is an initial part of the other.
  lemma {:induction false} Comparable(role: Role, start: State, env: Env, t: Trace, u: Trace)
    requires Replay(role, start, t).Some? && Agrees(env, t)
    requires Replay(role, start, u).Some? && Agrees(env, u)
    ensures Prefix(t, u) || Prefix(u, t)
    decreases t
  {
    if t.Begin? {
      BeginIsPrefix(u);
    } else {
      Comparable(role, start, env, t.past, u);
      if t.past != u && Prefix(t.past, u) {
        var e := StrictPrefix(role, start, env, t.past, u);
        SameEvent(role, Replay(role, start, t.past).value, env, t.past, t.event, e);
      }
    }
  }

  lemma {:induction false} BeginIsPrefix(u: Trace)
    ensures Prefix(Begin, u)
  {
    if u.Then? {
      BeginIsPrefix(u.past);
    }
  }

  /** The automaton and the environment leave no choice: a session has one run per environment.
      So a handler proved to produce a run produces the only one. */
  lemma RunIsUnique(role: Role, start: State, env: Env, t: Trace, u: Trace)
    requires IsRun(role, start, env, t) && IsRun(role, start, env, u)
    ensures t == u
  {
    Comparable(role, start, env, t, u);
    if t != u && Prefix(t, u) {
      var e := StrictPrefix(role, start, env, t, u);
    } else if t != u {
      var e := StrictPrefix(role, start, env, u, t);
    }
  }
}
