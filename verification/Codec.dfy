/**
 The packet format (src/tftp_packet.cpp) as a printer and a parser on values.

 An option map has no fixed enumeration order in the source, so the printer takes the order
 as a parameter and every theorem holds for all orders.
 */
module Codec {
  import opened Wire

  datatype Mode = NetAscii | Octet | Mail

  type Options = map<Bytes, Bytes>
  type Pair = (Bytes, Bytes)

  datatype Packet =
    | Request(write: bool, filename: Bytes, mode: Mode, options: Options)
    | Data(block: U16, payload: Bytes)
    | Ack(block: U16)
    | Error(code: U16, message: Bytes)
    | OptionAck(options: Options)

  // "netascii", "octet" and "mail"
  const NETASCII: Bytes := [110, 101, 116, 97, 115, 99, 105, 105]
  const OCTET: Bytes := [111, 99, 116, 101, 116]
  const MAIL: Bytes := [109, 97, 105, 108]

  function ModeName(m: Mode): (s: Bytes) {
    match m
    case NetAscii => NETASCII
    case Octet => OCTET
    case Mail => MAIL
  }

  function ToLower(c: Byte): Byte {
    if 65 <= c <= 90 then c + 32 else c
  }

  function Lower(s: Bytes): (r: Bytes)
    ensures |r| == |s|
  {
    seq(|s|, i requires 0 <= i < |s| => ToLower(s[i]))
  }

  // string_to_mode, with the exception as None.
  function ModeOf(s: Bytes): (m: Option<Mode>) {
    var lower := Lower(s);
    if lower == NETASCII then Some(NetAscii)
    else if lower == OCTET then Some(Octet)
    else if lower == MAIL then Some(Mail)
    else None
  }

  // ----- Printing

  function EncodePair(p: Pair): Bytes {
    p.0 + [0] + p.1 + [0]
  }

  function EncodePairs(ps: seq<Pair>): Bytes {
    if ps == [] then [] else EncodePair(ps[0]) + EncodePairs(ps[1..])
  }

  // `order` lists every key of `m` exactly once: one possible iteration order of the map.
  ghost predicate Enumerates(order: seq<Bytes>, m: Options) {
    && (forall k <- order :: k in m)
    && (forall k <- m :: k in order)
    && NoDuplicates(order)
  }

  ghost predicate NoDuplicates<T>(s: seq<T>) {
    forall i, j :: 0 <= i < j < |s| ==> s[i] != s[j]
  }

  function PairsOf(m: Options, order: seq<Bytes>): (ps: seq<Pair>)
    requires forall k <- order :: k in m
    ensures |ps| == |order|
  {
    seq(|order|, i requires 0 <= i < |order| => (order[i], m[order[i]]))
  }

  function OptionsOf(p: Packet): Options {
    if p.Request? || p.OptionAck? then p.options else map[]
  }

  function Opcode(p: Packet): U16 {
    match p
    case Request(write, _, _, _) => if write then 2 else 1
    case Data(_, _) => 3
    case Ack(_) => 4
    case Error(_, _) => 5
    case OptionAck(_) => 6
  }

  function Print(p: Packet, order: seq<Bytes>): (b: Bytes)
    requires forall k <- order :: k in OptionsOf(p)
    ensures |b| >= 2 && FromBe16(b) == Opcode(p)
  {
    Be16(Opcode(p)) +
    match p
    case Request(_, filename, mode, _) =>
      filename + [0] + ModeName(mode) + [0] + EncodePairs(PairsOf(OptionsOf(p), order))
    case Data(block, payload) => Be16(block) + payload
    case Ack(block) => Be16(block)
    case Error(code, message) => Be16(code) + message + [0]
    case OptionAck(_) => EncodePairs(PairsOf(OptionsOf(p), order))
  }

  // ----- Parsing

  // Assigning each pair in turn: the last of several equal names wins.
  function ToMap(ps: seq<Pair>): Options {
    if ps == [] then map[] else
      var last := ps[|ps| - 1];
      ToMap(ps[..|ps| - 1])[last.0 := last.1]
  }

  // The options loop; `left` is how many more options may be read.
  function TakePairs(rest: Bytes, left: nat): (r: Option<seq<Pair>>)
    decreases |rest|
  {
    if rest == [] then Some([])
    else if left == 0 then None
    else
      match TakeString(rest, MAX_OPTION_LENGTH)
      case None => None
      case Some((name, afterName)) =>
        if name == [] then Some([]) else
          match TakeString(afterName, MAX_OPTION_LENGTH)
          case None => None
          case Some((value, afterValue)) =>
            if value == [] then None else
              match TakePairs(afterValue, left - 1)
              case None => None
              case Some(ps) => Some([(name, value)] + ps)
  }

  function ParseOptions(rest: Bytes): (r: Option<Options>) {
    match TakePairs(rest, MAX_OPTIONS_COUNT)
    case None => None
    case Some(ps) => Some(ToMap(ps))
  }

  function ParseRequest(write: bool, rest: Bytes): (r: Option<Packet>) {
    match TakeString(rest, MAX_FILENAME_LENGTH)
    case None => None
    case Some((filename, afterName)) =>
      if filename == [] then None else
        match TakeString(afterName, MAX_STRING_LENGTH)
        case None => None
        case Some((modeName, afterMode)) =>
          match ModeOf(modeName)
          case None => None
          case Some(mode) =>
            match ParseOptions(afterMode)
            case None => None
            case Some(options) => Some(Request(write, filename, mode, options))
  }

  function ParseError(b: Bytes): (r: Option<Packet>)
    requires |b| >= 4
  {
    var code := FromBe16(b[2..]);
    if |b| < 5 || code > 7 then None else
      match TakeString(b[4..], MAX_ERROR_MESSAGE_LENGTH)
      case None => None
      case Some((message, _)) => Some(Error(code, message))
  }

  predicate SizeGate(b: Bytes) {
    MIN_PACKET_SIZE <= |b| <= MAX_PACKET_SIZE
  }

  function Parse(b: Bytes): (r: Option<Packet>) {
    if !SizeGate(b) then None
    else
      var op := FromBe16(b);
      if op == 1 || op == 2 then ParseRequest(op == 2, b[2..])
      else if op == 3 then
        if |b| - 4 > MAX_DATA_SIZE then None else Some(Data(FromBe16(b[2..]), b[4..]))
      else if op == 4 then
        if |b| != 4 then None else Some(Ack(FromBe16(b[2..])))
      else if op == 5 then ParseError(b)
      else if op == 6 then
        match ParseOptions(b[2..])
        case None => None
        case Some(options) => Some(OptionAck(options))
      else None
  }

  // ----- What a packet must satisfy to survive the wire

  predicate PairOk(p: Pair) {
    && Text(p.0, MAX_OPTION_LENGTH) && p.0 != []
    && Text(p.1, MAX_OPTION_LENGTH) && p.1 != []
  }

  ghost predicate OptionsOk(m: Options) {
    && |m| <= MAX_OPTIONS_COUNT
    && forall k <- m :: PairOk((k, m[k]))
  }

  ghost predicate Sendable(p: Packet) {
    match p
    case Request(_, filename, _, options) =>
      Text(filename, MAX_FILENAME_LENGTH) && filename != [] && OptionsOk(options)
    case Data(_, payload) => |payload| <= MAX_DATA_SIZE
    case Ack(_) => true
    case Error(code, message) => code <= 7 && Text(message, MAX_ERROR_MESSAGE_LENGTH)
    case OptionAck(options) => OptionsOk(options) && options != map[]
  }
}
