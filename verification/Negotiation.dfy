/**
 Option negotiation of the write handler (src/internal/tftp_server_impl.cpp): the OACK is
 assembled byte by byte, without the packet printer, from the options of the request.
 The number parser std::stoi is an arbitrary function from text to an optional integer.
 */
module Negotiation {
  import opened Wire
  import opened Codec
  import opened CodecTheorems

  // "tsize", "blksize", "timeout", "512" and "6"
  const TSIZE: Bytes := [116, 115, 105, 122, 101]
  const BLKSIZE: Bytes := [98, 108, 107, 115, 105, 122, 101]
  const TIMEOUT: Bytes := [116, 105, 109, 101, 111, 117, 116]
  const DEFAULT_BLKSIZE: Bytes := [53, 49, 50]
  const DEFAULT_TIMEOUT: Bytes := [54]

  type Stoi = Bytes -> Option<int>

  predicate InRange(n: Option<int>, lo: int, hi: int) {
    n.Some? && lo <= n.value <= hi
  }

  // The value answered for one option.
  function Answer(name: Bytes, value: Bytes, stoi: Stoi): Bytes {
    if name == BLKSIZE && !InRange(stoi(value), 8, 65464) then DEFAULT_BLKSIZE
    else if name == TIMEOUT && !InRange(stoi(value), 1, 255) then DEFAULT_TIMEOUT
    else value
  }

  function Negotiated(options: Options, stoi: Stoi): (r: Options)
    ensures r.Keys == options.Keys
  {
    map k | k in options :: Answer(k, options[k], stoi)
  }

  // The OACK datagram for the options of a request.
  function Oack(options: Options, order: seq<Bytes>, stoi: Stoi): Bytes
    requires forall k <- order :: k in options
  {
    Print(OptionAck(Negotiated(options, stoi)), order)
  }

  // Pushing the characters of a string and its terminator one at a time.
  method PushString(buffer: Bytes, s: Bytes) returns (bytes: Bytes)
    ensures bytes == buffer + s + [0]
  {
    bytes := buffer;
    for i := 0 to |s|
      invariant bytes == buffer + s[..i]
    {
      bytes := bytes + [s[i]];
    }
    bytes := bytes + [0];
  }

  /** The hand-built OACK is what printing an OACK with the negotiated values would give. */
  method BuildOack(options: Options, order: seq<Bytes>, stoi: Stoi) returns (oack: Bytes)
    requires Enumerates(order, options)
    ensures oack == Oack(options, order, stoi)
  {
    ghost var answers := Negotiated(options, stoi);
    oack := Be16(6);
    for i := 0 to |order|
      invariant oack == Be16(6) + EncodePairs(PairsOf(answers, order[..i]))
    {
      var name := order[i];
      ghost var before := oack;
      oack := PushString(oack, name);
      var value := options[name];
      if name == TSIZE {
        value := options[name];
      } else if name == BLKSIZE {
        var n := stoi(value);
        if n.None? || !(8 <= n.value <= 65464) {
          value := DEFAULT_BLKSIZE;
        }
      } else if name == TIMEOUT {
        var n := stoi(value);
        if n.None? || !(1 <= n.value <= 255) {
          value := DEFAULT_TIMEOUT;
        }
      }
      oack := PushString(oack, value);
      assert value == answers[name];
      AppendOneOption(answers, order, i, before, oack);
    }
    assert order[..|order|] == order;
  }

  lemma AppendOneOption(m: Options, order: seq<Bytes>, i: nat, before: Bytes, after: Bytes)
    requires i < |order| && forall k <- order :: k in m
    requires before == Be16(6) + EncodePairs(PairsOf(m, order[..i]))
    requires after == before + order[i] + [0] + m[order[i]] + [0]
    ensures after == Be16(6) + EncodePairs(PairsOf(m, order[..i + 1]))
  {
    var pair := (order[i], m[order[i]]);
    assert PairsOf(m, order[..i + 1]) == PairsOf(m, order[..i]) + [pair];
    EncodePairsAppend(PairsOf(m, order[..i]), [pair]);
    assert EncodePairs([pair]) == EncodePair(pair);
    assert after == before + EncodePair(pair);
  }

  // ----- The OACK fits and says what was negotiated

  // Bytes by which answering can lengthen an option of this name.
  function Growth(name: Bytes): nat {
    if name == BLKSIZE then 2 else 0
  }

  lemma AnswerOk(name: Bytes, value: Bytes, stoi: Stoi)
    requires PairOk((name, value))
    ensures PairOk((name, Answer(name, value, stoi)))
    ensures |Answer(name, value, stoi)| <= |value| + Growth(name)
  {
  }

  // Only one name can grow, and it is listed at most once.
  lemma {:induction false} AnswersGrow(options: Options, order: seq<Bytes>, stoi: Stoi)
    requires NoDuplicates(order) && forall k <- order :: k in options
    requires forall k <- options :: PairOk((k, options[k]))
    ensures |EncodePairs(PairsOf(Negotiated(options, stoi), order))|
         <= |EncodePairs(PairsOf(options, order))| + if BLKSIZE in order then 2 else 0
  {
    if order != [] {
      var n := |order| - 1;
      var name := order[n];
      var answers := Negotiated(options, stoi);
      assert order == order[..n] + [name];
      AnswersGrow(options, order[..n], stoi);
      AnswerOk(name, options[name], stoi);
      assert PairsOf(options, order) == PairsOf(options, order[..n]) + [(name, options[name])];
      assert PairsOf(answers, order) == PairsOf(answers, order[..n]) + [(name, answers[name])];
      EncodePairsAppend(PairsOf(options, order[..n]), [(name, options[name])]);
      EncodePairsAppend(PairsOf(answers, order[..n]), [(name, answers[name])]);
    }
  }

  lemma NegotiatedOk(options: Options, stoi: Stoi)
    requires OptionsOk(options)
    ensures OptionsOk(Negotiated(options, stoi))
  {
  }

  // A request leaves at least nine bytes for its operation code, filename and mode.
  lemma RequestOverhead(b: Bytes, order: seq<Bytes>)
    requires Parse(b).Some? && Parse(b).value.Request? && Enumerates(order, Parse(b).value.options)
    ensures |EncodePairs(PairsOf(Parse(b).value.options, order))| + 9 <= |b|
  {
    var (filename, afterName) := TakeString(b[2..], MAX_FILENAME_LENGTH).value;
    var (modeName, afterMode) := TakeString(afterName, MAX_STRING_LENGTH).value;
    ModeTextKnown(modeName);
    ParsedOptionsOk(afterMode);
  }

  lemma OackFits(options: Options, order: seq<Bytes>, stoi: Stoi, room: nat)
    requires OptionsOk(options) && options != map[] && Enumerates(order, options)
    requires |EncodePairs(PairsOf(options, order))| + 9 <= room <= MAX_PACKET_SIZE
    ensures |Oack(options, order, stoi)| <= room - 5
    ensures Parse(Oack(options, order, stoi)) == Some(OptionAck(Negotiated(options, stoi)))
  {
    hide Parse, EncodePairs, PairsOf, Answer;
    AnswersGrow(options, order, stoi);
    NegotiatedOk(options, stoi);
    assert Negotiated(options, stoi).Keys != {};
    RoundTrip(OptionAck(Negotiated(options, stoi)), order);
  }

  // The value stays exactly if it is a number in the range, or is the default already, which
  // stands in for it otherwise.
  predicate KeptInRange(value: Bytes, answer: Bytes, n: Option<int>, lo: int, hi: int, otherwise: Bytes) {
    && (answer == value <==> (n.Some? && lo <= n.value <= hi) || value == otherwise)
    && (answer != value ==> answer == otherwise)
  }

  /** "blksize" keeps a value from 8 to 65464 and gets "512" otherwise, "timeout" keeps one from 1
      to 255 and gets "6" otherwise; every other option, "tsize" among them, keeps its value. */
  predicate AnsweredAs(name: Bytes, value: Bytes, answer: Bytes, stoi: Stoi) {
    if name == [98, 108, 107, 115, 105, 122, 101] then
      KeptInRange(value, answer, stoi(value), 8, 65464, [53, 49, 50])
    else if name == [116, 105, 109, 101, 111, 117, 116] then
      KeptInRange(value, answer, stoi(value), 1, 255, [54])
    else
      answer == value
  }

  /** For every accepted write request with options and every iteration order, the OACK is
      shorter than the request, fits in a datagram, and reads back as exactly the request's
      option names, each with the answer it should get. */
  lemma OackDelivers(b: Bytes, order: seq<Bytes>, stoi: Stoi) returns (answers: Options)
    requires Parse(b).Some? && Parse(b).value.Request? && Parse(b).value.options != map[]
    requires Enumerates(order, Parse(b).value.options)
    ensures |Oack(Parse(b).value.options, order, stoi)| <= |b| - 5 < 516
    ensures Parse(Oack(Parse(b).value.options, order, stoi)) == Some(OptionAck(answers))
    ensures answers.Keys == Parse(b).value.options.Keys
    ensures forall name <- answers :: AnsweredAs(name, Parse(b).value.options[name], answers[name], stoi)
  {
    hide EncodePairs, PairsOf, Enumerates, Oack, OptionsOk, ParseRequest, ParseOptions, ParseError;
    var options := Parse(b).value.options;
    answers := Negotiated(options, stoi);
    ParsedSendable(b);
    RequestOverhead(b, order);
    OackFits(options, order, stoi, |b|);
  }
}
