/**
 The packet object (src/tftp_packet.cpp): the loops and field updates of the source, proved
 against the printer and parser of module Codec.
 */
module TftpPacketModel {
  import opened Wire
  import opened Codec
  import opened CodecTheorems

  // ----- Reading strings and options from a buffer at a moving offset

  // What remains to be read at an offset; reading past the end finds nothing.
  function From(data: Bytes, offset: nat): Bytes {
    if offset <= |data| then data[offset..] else []
  }

  /** Reads a NUL-terminated string; SIZE_MAX as the new offset signals failure. */
  method ReadStringValidated(data: Bytes, offset: nat, max: nat) returns (result: Bytes, next: nat)
    requires |data| < SIZE_MAX
    ensures TakeString(From(data, offset), max) == None ==> result == [] && next == SIZE_MAX
    ensures TakeString(From(data, offset), max).Some? ==>
              && next == offset + |result| + 1 <= |data|
              && TakeString(From(data, offset), max) == Some((result, From(data, next)))
  {
    if offset >= |data| {
      return [], SIZE_MAX;
    }
    ghost var rest := data[offset..];
    ghost var whole := TakeString(rest, max);
    assert whole.Some? ==> rest[|whole.value.0|] == 0;
    result, next := [], offset;
    var charsRead := 0;
    while next < |data| && data[next] != 0 && charsRead < max
      invariant offset <= next <= |data| && charsRead == next - offset <= max
      invariant result == rest[..charsRead] && 0 !in result
    {
      result := result + [data[next]];
      next := next + 1;
      charsRead := charsRead + 1;
    }
    if next >= |data| {
      return [], SIZE_MAX;
    }
    if charsRead >= max && data[next] != 0 {
      return [], SIZE_MAX;
    }
    next := next + 1;
    assert rest == result + [0] + data[next..];
    TakeStringComplete(result, data[next..], max);
  }

  /** Reads name/value pairs up to the end, an empty name or the option limit. */
  method ReadOptions(data: Bytes, start: nat) returns (ok: bool, options: Options)
    requires start <= |data| < SIZE_MAX
    ensures ok == ParseOptions(data[start..]).Some?
    ensures ok ==> ParseOptions(data[start..]) == Some(options)
  {
    ghost var ps: seq<Pair> := [];
    var offset, count := start, 0;
    options := map[];
    ContinuesStart(data[start..]);
    while offset < |data| && count < MAX_OPTIONS_COUNT
      invariant offset <= |data|
      invariant count == |ps| <= MAX_OPTIONS_COUNT && options == ToMap(ps)
      invariant Continues(data[start..], ps, data[offset..])
      decreases |data| - offset
    {
      var name, afterName := ReadStringValidated(data, offset, MAX_OPTION_LENGTH);
      if afterName == SIZE_MAX {
        return false, map[];
      }
      if name == [] {
        assert ps + [] == ps;
        return true, options;
      }
      if afterName >= |data| {
        return false, map[];
      }
      var value, afterValue := ReadStringValidated(data, afterName, MAX_OPTION_LENGTH);
      if afterValue == SIZE_MAX || value == [] {
        return false, map[];
      }
      ContinuesNext(data[start..], ps, data[offset..], name, data[afterName..], value, data[afterValue..]);
      ps := ps + [(name, value)];
      options := options[name := value];
      count := count + 1;
      offset := afterValue;
    }
    if count >= MAX_OPTIONS_COUNT && offset < |data| {
      return false, map[];
    }
    assert ps + [] == ps;
    return true, options;
  }

  // The result of a whole reading is `ps` followed by what the rest of the reading yields.
  ghost predicate Joins(whole: Option<seq<Pair>>, ps: seq<Pair>, more: Option<seq<Pair>>) {
    match more
    case None => whole == None
    case Some(qs) => whole == Some(ps + qs)
  }

  function Prepend(p: Pair, more: Option<seq<Pair>>): Option<seq<Pair>> {
    match more
    case None => None
    case Some(qs) => Some([p] + qs)
  }

  lemma JoinsNext(whole: Option<seq<Pair>>, ps: seq<Pair>, p: Pair, more: Option<seq<Pair>>)
    requires Joins(whole, ps, Prepend(p, more))
    ensures Joins(whole, ps + [p], more)
  {
    if more.Some? {
      assert ps + ([p] + more.value) == ps + [p] + more.value;
    }
  }

  // After reading `ps`, the options in `text` are those and whatever `rest` still holds.
  ghost predicate Continues(text: Bytes, ps: seq<Pair>, rest: Bytes)
    requires |ps| <= MAX_OPTIONS_COUNT
  {
    Joins(TakePairs(text, MAX_OPTIONS_COUNT), ps, TakePairs(rest, MAX_OPTIONS_COUNT - |ps|))
  }

  lemma ContinuesStart(text: Bytes)
    ensures Continues(text, [], text)
  {
    var whole := TakePairs(text, MAX_OPTIONS_COUNT);
    assert whole.Some? ==> [] + whole.value == whole.value;
  }

  lemma TakePairsUnfold(rest: Bytes, left: nat, name: Bytes, afterName: Bytes, value: Bytes, afterValue: Bytes)
    requires left > 0 && rest != []
    requires name != [] && TakeString(rest, MAX_OPTION_LENGTH) == Some((name, afterName))
    requires value != [] && TakeString(afterName, MAX_OPTION_LENGTH) == Some((value, afterValue))
    ensures TakePairs(rest, left) == Prepend((name, value), TakePairs(afterValue, left - 1))
  {
  }

  lemma ContinuesNext(text: Bytes, ps: seq<Pair>, rest: Bytes,
                      name: Bytes, afterName: Bytes, value: Bytes, afterValue: Bytes)
    requires |ps| < MAX_OPTIONS_COUNT && Continues(text, ps, rest)
    requires rest != []
    requires name != [] && TakeString(rest, MAX_OPTION_LENGTH) == Some((name, afterName))
    requires value != [] && TakeString(afterName, MAX_OPTION_LENGTH) == Some((value, afterValue))
    ensures Continues(text, ps + [(name, value)], afterValue)
    ensures ToMap(ps + [(name, value)]) == ToMap(ps)[name := value]
  {
    TakePairsUnfold(rest, MAX_OPTIONS_COUNT - |ps|, name, afterName, value, afterValue);
    JoinsNext(TakePairs(text, MAX_OPTIONS_COUNT), ps, (name, value),
              TakePairs(afterValue, MAX_OPTIONS_COUNT - |ps| - 1));
    ToMapAppend(ps, (name, value));
  }

  lemma ToMapAppend(ps: seq<Pair>, p: Pair)
    ensures ToMap(ps + [p]) == ToMap(ps)[p.0 := p.1]
  {
  }

  // ----- The object

  // The values of all the fields of a packet object.
  datatype Fields = Fields(op: U16, block: U16, error: U16, filename: Bytes, mode: Mode,
                           data: Bytes, message: Bytes, options: Options)

  const RESET := Fields(1, 0, 0, [], Octet, [], [], map[])

  function FieldsOf(p: Packet): Fields {
    var f := RESET.(op := Opcode(p));
    match p
    case Request(_, filename, mode, options) => f.(filename := filename, mode := mode, options := options)
    case Data(block, payload) => f.(block := block, data := payload)
    case Ack(block) => f.(block := block)
    case Error(code, message) => f.(error := code, message := message)
    case OptionAck(options) => f.(options := options)
  }

  // The packet an object stands for: the operation code says which fields matter.
  function View(f: Fields): Option<Packet> {
    if f.op == 1 || f.op == 2 then Some(Request(f.op == 2, f.filename, f.mode, f.options))
    else if f.op == 3 then Some(Data(f.block, f.data))
    else if f.op == 4 then Some(Ack(f.block))
    else if f.op == 5 then Some(Error(f.error, f.message))
    else if f.op == 6 then Some(OptionAck(f.options))
    else None
  }

  // What an object prints: only a request and an OACK carry the options.
  function Serialized(f: Fields, order: seq<Bytes>): Bytes
    requires Enumerates(order, f.options)
  {
    match View(f)
    case None => []
    case Some(p) => Print(p, if p.Request? || p.OptionAck? then order else [])
  }

  // Everything the object is after a Deserialize call: it depends on the bytes alone.
  function Deserialized(b: Bytes): Fields {
    match Parse(b)
    case Some(p) => FieldsOf(p)
    case None => if SizeGate(b) then RESET.(op := FromBe16(b)) else RESET
  }

  class TftpPacket {
    var opCode: U16
    var blockNumber: U16
    var errorCode: U16
    var filename: Bytes
    var mode: Mode
    var data: Bytes
    var errorMessage: Bytes
    var options: Options

    ghost function State(): Fields
      reads this
    {
      Fields(opCode, blockNumber, errorCode, filename, mode, data, errorMessage, options)
    }

    constructor ()
      ensures State() == RESET
    {
      opCode, blockNumber, errorCode := 1, 0, 0;
      filename, mode, data, errorMessage, options := [], Octet, [], [], map[];
    }

    method ResetState()
      modifies this
      ensures State() == RESET
      ensures opCode == 1 && blockNumber == 0 && errorCode == 0 && filename == [] && mode == Octet
      ensures data == [] && errorMessage == [] && options == map[]
    {
      opCode, blockNumber, errorCode := 1, 0, 0;
      filename, mode, data, errorMessage, options := [], Octet, [], [], map[];
    }

    method SetOption(name: Bytes, value: Bytes)
      modifies this`options
      ensures options == old(options)[name := value]
    {
      options := options[name := value];
    }

    // RRQ and WRQ: everything is parsed into temporaries before any field is assigned.
    method DeserializeRequest(bytes: Bytes) returns (ok: bool)
      requires SizeGate(bytes) && (opCode == 1 || opCode == 2)
      modifies this`filename, this`mode, this`options
      ensures ok == ParseRequest(opCode == 2, bytes[2..]).Some?
      ensures ok ==> ParseRequest(opCode == 2, bytes[2..]) == Some(Request(opCode == 2, filename, mode, options))
      ensures !ok ==> State() == old(State())
    {
      var name, offset := ReadStringValidated(bytes, 2, MAX_FILENAME_LENGTH);
      if offset == SIZE_MAX || name == [] || offset >= |bytes| {
        return false;
      }
      var modeName, afterMode := ReadStringValidated(bytes, offset, MAX_STRING_LENGTH);
      if afterMode == SIZE_MAX || modeName == [] {
        return false;
      }
      var parsedMode := ModeOf(modeName);
      if parsedMode == None {
        return false;
      }
      var optionsOk, parsedOptions := ReadOptions(bytes, afterMode);
      if !optionsOk {
        return false;
      }
      filename := name;
      mode := parsedMode.value;
      options := parsedOptions;
      return true;
    }

    /** Whatever the object held, it ends in the state the bytes determine; a failed call leaves
        only the received operation code behind. */
    method Deserialize(bytes: Bytes) returns (ok: bool)
      requires |bytes| < SIZE_MAX
      modifies this
      ensures ok == Parse(bytes).Some?
      ensures State() == Deserialized(bytes)
      ensures ok ==> View(State()) == Parse(bytes) && UnusedReset(State())
      ensures !ok ==>
                && opCode == (if 4 <= |bytes| <= 516 then (bytes[0] as int) * 256 + (bytes[1] as int) else 1)
                && blockNumber == 0 && errorCode == 0 && filename == [] && mode == Octet
                && data == [] && errorMessage == [] && options == map[]
    {
      ResetState();
      if |bytes| < MIN_PACKET_SIZE || |bytes| > MAX_PACKET_SIZE {
        return false;
      }
      opCode := FromBe16(bytes);
      if opCode == 1 || opCode == 2 {
        ok := DeserializeRequest(bytes);
      } else if opCode == 3 {
        blockNumber := FromBe16(bytes[2..]);
        if |bytes| - 4 > MAX_DATA_SIZE {
          assert false; // the size gate already excludes an oversized payload
        }
        data := bytes[4..];
        ok := true;
      } else if opCode == 4 {
        if |bytes| != 4 {
          return false;
        }
        blockNumber := FromBe16(bytes[2..]);
        ok := true;
      } else if opCode == 5 {
        if |bytes| < 5 {
          return false;
        }
        var code := FromBe16(bytes[2..]);
        if code > 7 {
          return false;
        }
        var message, offset := ReadStringValidated(bytes, 4, MAX_ERROR_MESSAGE_LENGTH);
        if offset == SIZE_MAX {
          return false;
        }
        errorCode := code;
        errorMessage := message;
        ok := true;
      } else if opCode == 6 {
        var optionsOk, parsedOptions := ReadOptions(bytes, 2);
        if !optionsOk {
          return false;
        }
        options := parsedOptions;
        ok := true;
      } else {
        ok := false;
      }
    }

    // RRQ and WRQ.
    method SerializeRequest(order: seq<Bytes>) returns (bytes: Bytes)
      requires Enumerates(order, options) && (opCode == 1 || opCode == 2)
      ensures bytes == Print(Request(opCode == 2, filename, mode, options), order)
    {
      bytes := Be16(opCode);
      bytes := bytes + filename + [0];
      bytes := bytes + ModeName(mode) + [0];
      ghost var header := bytes;
      assert header == Be16(opCode) + (filename + [0] + ModeName(mode) + [0]);
      bytes := AppendOptions(bytes, options, order);
      ghost var opts := EncodePairs(PairsOf(options, order));
      assert header + opts == Be16(opCode) + (filename + [0] + ModeName(mode) + [0] + opts);
    }

    /** Prints the packet the object stands for, in the given iteration order of its options. */
    method Serialize(order: seq<Bytes>) returns (bytes: Bytes)
      requires Enumerates(order, options)
      ensures bytes == Serialized(State(), order)
      ensures bytes == [] <==> opCode == 0 || opCode > 6
    {
      if opCode == 1 || opCode == 2 {
        bytes := SerializeRequest(order);
      } else if opCode == 3 {
        bytes := Be16(opCode);
        bytes := bytes + Be16(blockNumber);
        bytes := bytes + data;
        assert bytes == Be16(opCode) + (Be16(blockNumber) + data);
      } else if opCode == 4 {
        bytes := Be16(opCode) + Be16(blockNumber);
      } else if opCode == 5 {
        bytes := Be16(opCode);
        bytes := bytes + Be16(errorCode);
        bytes := bytes + errorMessage + [0];
        assert bytes == Be16(opCode) + (Be16(errorCode) + errorMessage + [0]);
      } else if opCode == 6 {
        bytes := Be16(opCode);
        bytes := AppendOptions(bytes, options, order);
      } else {
        bytes := [];
      }
    }
  }

  // The loop that appends every option of a map to a buffer.
  method AppendOptions(buffer: Bytes, options: Options, order: seq<Bytes>) returns (bytes: Bytes)
    requires forall k <- order :: k in options
    ensures bytes == buffer + EncodePairs(PairsOf(options, order))
  {
    bytes := buffer;
    for i := 0 to |order|
      invariant bytes == buffer + EncodePairs(PairsOf(options, order[..i]))
    {
      var name := order[i];
      assert PairsOf(options, order[..i + 1]) == PairsOf(options, order[..i]) + [(name, options[name])];
      EncodePairsAppend(PairsOf(options, order[..i]), [(name, options[name])]);
      bytes := bytes + name;
      bytes := bytes + [0];
      bytes := bytes + options[name];
      bytes := bytes + [0];
    }
    assert order[..|order|] == order;
  }

  /** Any object that stands for a packet, whatever its other fields hold, printed and read into
      another object: the bytes are read as that packet if and only if it is well formed and fits a
      datagram. The other object then agrees on every field of the packet and has reset values
      elsewhere, so it equals the first exactly when that one has them too. */
  lemma ObjectRoundTrip(f: Fields, order: seq<Bytes>)
    requires Enumerates(order, f.options) && View(f).Some?
    ensures var p, bytes := View(f).value, Serialized(f, order);
            && (Parse(bytes) == Some(p) <==> Sendable(p) && |bytes| <= MAX_PACKET_SIZE)
            && (Sendable(p) && |bytes| <= MAX_PACKET_SIZE ==>
                  && Deserialized(bytes) == FieldsOf(p) && View(Deserialized(bytes)) == View(f)
                  && (Deserialized(bytes) == f <==> UnusedReset(f)))
  {
    var p := View(f).value;
    RoundTrip(p, if p.Request? || p.OptionAck? then order else []);
  }

  // The fields that do not belong to the packet an object stands for have their reset values.
  predicate UnusedReset(f: Fields) {
    match View(f)
    case None => f == RESET.(op := f.op)
    case Some(Request(_, _, _, _)) =>
      f == RESET.(op := f.op, filename := f.filename, mode := f.mode, options := f.options)
    case Some(Data(_, _)) => f == RESET.(op := f.op, block := f.block, data := f.data)
    case Some(Ack(_)) => f == RESET.(op := f.op, block := f.block)
    case Some(Error(_, _)) => f == RESET.(op := f.op, error := f.error, message := f.message)
    case Some(OptionAck(_)) => f == RESET.(op := f.op, options := f.options)
  }
}
