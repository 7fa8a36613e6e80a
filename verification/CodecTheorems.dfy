/**
 Round trip, exact acceptance and normalisation of the packet format.
 */
module CodecTheorems {
  import opened Wire
  import opened Codec

  // ----- Option lists

  lemma {:induction false} EncodePairsAppend(ps: seq<Pair>, qs: seq<Pair>)
    ensures EncodePairs(ps + qs) == EncodePairs(ps) + EncodePairs(qs)
  {
    if ps == [] {
      assert ps + qs == qs;
    } else {
      assert (ps + qs)[1..] == ps[1..] + qs;
      EncodePairsAppend(ps[1..], qs);
    }
  }

  // What may follow the last option: nothing, or (if another option was still allowed) an
  // empty name, which ends the list whatever comes after it.
  predicate TailOk(tail: Bytes, count: nat, limit: nat) {
    if tail == [] then count <= limit else tail[0] == 0 && count < limit
  }

  // The source text of an option list.
  ghost predicate OptionList(rest: Bytes, limit: nat, ps: seq<Pair>, tail: Bytes) {
    && rest == EncodePairs(ps) + tail
    && (forall p <- ps :: PairOk(p))
    && TailOk(tail, |ps|, limit)
  }

  lemma OptionListCons(p: Pair, rest: Bytes, limit: nat, ps: seq<Pair>, tail: Bytes)
    requires PairOk(p) && OptionList(rest, limit, ps, tail)
    ensures OptionList(EncodePair(p) + rest, limit + 1, [p] + ps, tail)
  {
  }

  lemma PairText(name: Bytes, value: Bytes, rest: Bytes)
    ensures name + [0] + (value + [0] + rest) == EncodePair((name, value)) + rest
  {
  }

  lemma {:induction false} TakePairsSound(rest: Bytes, limit: nat) returns (tail: Bytes)
    requires TakePairs(rest, limit).Some?
    ensures OptionList(rest, limit, TakePairs(rest, limit).value, tail)
    decreases |rest|
  {
    hide EncodePair;
    if rest == [] {
      tail := [];
    } else {
      var (name, afterName) := TakeString(rest, MAX_OPTION_LENGTH).value;
      if name == [] {
        tail := rest;
      } else {
        var (value, afterValue) := TakeString(afterName, MAX_OPTION_LENGTH).value;
        tail := TakePairsSound(afterValue, limit - 1);
        OptionListCons((name, value), afterValue, limit - 1, TakePairs(afterValue, limit - 1).value, tail);
        PairText(name, value, afterValue);
      }
    }
  }

  lemma {:induction false} TakePairsComplete(ps: seq<Pair>, tail: Bytes, limit: nat)
    requires OptionList(EncodePairs(ps) + tail, limit, ps, tail)
    ensures TakePairs(EncodePairs(ps) + tail, limit) == Some(ps)
  {
    hide EncodePair, TakeString;
    var rest := EncodePairs(ps) + tail;
    if ps == [] {
      assert rest == tail;
      if tail != [] {
        TakeStringComplete([], tail[1..], MAX_OPTION_LENGTH);
        assert tail == [] + [0] + tail[1..];
      }
    } else {
      var (name, value) := ps[0];
      var afterValue := EncodePairs(ps[1..]) + tail;
      var afterName := value + [0] + afterValue;
      assert rest == EncodePair(ps[0]) + afterValue;
      PairText(name, value, afterValue);
      assert PairOk(ps[0]);
      TakeStringComplete(name, afterName, MAX_OPTION_LENGTH);
      TakeStringComplete(value, afterValue, MAX_OPTION_LENGTH);
      TakePairsComplete(ps[1..], tail, limit - 1);
      assert [(name, value)] + ps[1..] == ps;
    }
  }

  // ----- Option maps

  lemma {:induction false} ToMapOfPairsOf(m: Options, order: seq<Bytes>)
    requires forall k <- order :: k in m
    ensures ToMap(PairsOf(m, order)) == map k | k in order :: m[k]
  {
    if order != [] {
      var n := |order| - 1;
      assert PairsOf(m, order)[..n] == PairsOf(m, order[..n]);
      ToMapOfPairsOf(m, order[..n]);
      assert order == order[..n] + [order[n]];
    }
  }

  /** Of several options with one name the last one counts. */
  lemma {:induction false} LastDuplicateWins(ps: seq<Pair>, i: nat)
    requires i < |ps| && forall j :: i < j < |ps| ==> ps[j].0 != ps[i].0
    ensures ps[i].0 in ToMap(ps) && ToMap(ps)[ps[i].0] == ps[i].1
  {
    if i < |ps| - 1 {
      LastDuplicateWins(ps[..|ps| - 1], i);
    }
  }

  lemma {:induction false} ToMapFacts(ps: seq<Pair>)
    ensures |ToMap(ps)| <= |ps|
    ensures forall k <- ToMap(ps) :: (k, ToMap(ps)[k]) in ps
  {
    if ps != [] {
      ToMapFacts(ps[..|ps| - 1]);
      var last := ps[|ps| - 1];
      assert ps == ps[..|ps| - 1] + [last];
    }
  }

  lemma {:induction false} EnumerationLength(order: seq<Bytes>, m: Options)
    requires Enumerates(order, m)
    ensures |order| == |m|
  {
    if order == [] {
      assert m.Keys == {};
    } else {
      var n := |order| - 1;
      var k := order[n];
      var m' := m - {k};
      assert m'.Keys == m.Keys - {k};
      assert order == order[..n] + [k];
      EnumerationLength(order[..n], m');
    }
  }

  lemma NothingListed(order: seq<Bytes>, m: Options)
    requires m == map[] && forall k <- order :: k in m
    ensures order == []
  {
    var k := if order == [] then [] else order[0];
    assert order == [] || k in order;
  }

  // Names listed once each print no longer than the list their values came from.
  lemma {:induction false} PrintedOptionsShrink(ps: seq<Pair>, order: seq<Bytes>)
    requires NoDuplicates(order)
    requires forall k <- order :: k in ToMap(ps)
    ensures |EncodePairs(PairsOf(ToMap(ps), order))| <= |EncodePairs(ps)|
    decreases |ps|
  {
    var m := ToMap(ps);
    if ps == [] {
      NothingListed(order, m);
    } else {
      var last := ps[|ps| - 1];
      var init := ps[..|ps| - 1];
      assert ps == init + [last];
      EncodePairsAppend(init, [last]);
      assert EncodePairs([last]) == EncodePair(last);
      if i :| 0 <= i < |order| && order[i] == last.0 {
        var order' := order[..i] + order[i + 1..];
        assert order == order[..i] + [last.0] + order[i + 1..];
        forall k | k in order'
          ensures k in ToMap(init)
        {
          var j :| 0 <= j < |order'| && order'[j] == k;
          assert k == order[if j < i then j else j + 1];
          assert k in m && k != last.0;
        }
        PrintedOptionsShrink(init, order');
        assert PairsOf(ToMap(init), order') == PairsOf(m, order[..i]) + PairsOf(m, order[i + 1..]);
        assert PairsOf(m, order) == PairsOf(m, order[..i]) + [last] + PairsOf(m, order[i + 1..]);
        EncodePairsAppend(PairsOf(m, order[..i]) + [last], PairsOf(m, order[i + 1..]));
        EncodePairsAppend(PairsOf(m, order[..i]), [last]);
        EncodePairsAppend(PairsOf(m, order[..i]), PairsOf(m, order[i + 1..]));
      } else {
        PrintedOptionsShrink(init, order);
        assert PairsOf(ToMap(init), order) == PairsOf(m, order);
      }
    }
  }

  lemma ParsePrintedOptions(m: Options, order: seq<Bytes>)
    requires OptionsOk(m) && Enumerates(order, m)
    ensures ParseOptions(EncodePairs(PairsOf(m, order))) == Some(m)
  {
    var ps := PairsOf(m, order);
    EnumerationLength(order, m);
    forall p | p in ps
      ensures PairOk(p)
    {
      var i :| 0 <= i < |ps| && ps[i] == p;
    }
    assert EncodePairs(ps) + [] == EncodePairs(ps);
    TakePairsComplete(ps, [], MAX_OPTIONS_COUNT);
    ToMapOfPairsOf(m, order);
    assert ToMap(ps) == m;
  }

  lemma ParsedOptionsOk(rest: Bytes)
    requires ParseOptions(rest).Some?
    ensures OptionsOk(ParseOptions(rest).value)
    ensures forall order :: Enumerates(order, ParseOptions(rest).value) ==>
              |EncodePairs(PairsOf(ParseOptions(rest).value, order))| <= |rest|
  {
    var ps := TakePairs(rest, MAX_OPTIONS_COUNT).value;
    var tail := TakePairsSound(rest, MAX_OPTIONS_COUNT);
    ToMapFacts(ps);
    forall order | Enumerates(order, ToMap(ps))
      ensures |EncodePairs(PairsOf(ToMap(ps), order))| <= |rest|
    {
      PrintedOptionsShrink(ps, order);
    }
  }

  // ----- Modes

  lemma ModeRoundTrip(m: Mode)
    ensures ModeOf(ModeName(m)) == Some(m)
    ensures Text(ModeName(m), MAX_STRING_LENGTH)
  {
  }

  lemma ModeTextKnown(s: Bytes)
    requires ModeOf(s).Some?
    ensures |s| == |ModeName(ModeOf(s).value)| >= 4
    ensures Text(s, MAX_STRING_LENGTH)
  {
    var name := ModeName(ModeOf(s).value);
    assert Lower(s) == name;
    ModeRoundTrip(ModeOf(s).value);
    forall i | 0 <= i < |s|
      ensures s[i] != 0
    {
      assert ToLower(s[i]) == name[i];
    }
  }

  // ----- Round trip

  lemma RequestRoundTrip(p: Packet, order: seq<Bytes>)
    requires p.Request? && Sendable(p) && Enumerates(order, p.options)
    ensures ParseRequest(p.write, Print(p, order)[2..]) == Some(p)
  {
    hide EncodePairs, PairsOf, TakeString, ParseOptions, ModeOf, ModeName, OptionsOk;
    var opts := EncodePairs(PairsOf(p.options, order));
    var afterName := ModeName(p.mode) + [0] + opts;
    assert Print(p, order)[2..] == p.filename + [0] + afterName;
    TakeStringComplete(p.filename, afterName, MAX_FILENAME_LENGTH);
    ModeRoundTrip(p.mode);
    TakeStringComplete(ModeName(p.mode), opts, MAX_STRING_LENGTH);
    ParsePrintedOptions(p.options, order);
  }

  lemma OackRoundTrip(p: Packet, order: seq<Bytes>)
    requires p.OptionAck? && Sendable(p) && Enumerates(order, p.options)
    requires |Print(p, order)| <= MAX_PACKET_SIZE
    ensures Parse(Print(p, order)) == Some(p)
  {
    hide PairsOf, ParseOptions, ParseRequest, ParseError;
    var b := Print(p, order);
    assert b[2..] == EncodePairs(PairsOf(p.options, order));
    ParsePrintedOptions(p.options, order);
    SomeOptionPrinted(p.options, order);
  }

  lemma SomeOptionPrinted(m: Options, order: seq<Bytes>)
    requires OptionsOk(m) && m != map[] && Enumerates(order, m)
    ensures |EncodePairs(PairsOf(m, order))| >= 2
  {
    var k :| k in m;
    assert k in order;
  }

  lemma SendableRoundTrip(p: Packet, order: seq<Bytes>)
    requires Sendable(p) && Enumerates(order, OptionsOf(p))
    requires |Print(p, order)| <= MAX_PACKET_SIZE
    ensures Parse(Print(p, order)) == Some(p)
  {
    hide PairsOf, EncodePairs, ParseOptions, ParseRequest, OptionsOk;
    var b := Print(p, order);
    match p
    case Request(_, _, _, _) =>
      RequestRoundTrip(p, order);
    case Data(block, payload) =>
      assert b[2..][..2] == Be16(block);
      assert b[4..] == payload;
    case Ack(block) =>
      assert b[2..][..2] == Be16(block);
    case Error(code, message) =>
      assert b[2..][..2] == Be16(code);
      assert b[4..] == message + [0] + [];
      TakeStringComplete(message, [], MAX_ERROR_MESSAGE_LENGTH);
    case OptionAck(_) =>
      OackRoundTrip(p, order);
  }

  // Everything the parser returns could have been sent, except an OACK without options.
  lemma ParsedSendable(b: Bytes)
    requires Parse(b).Some?
    ensures Parse(b).value == OptionAck(map[]) || Sendable(Parse(b).value)
    ensures Opcode(Parse(b).value) == FromBe16(b)
  {
    var p := Parse(b).value;
    if p.Request? {
      var (filename, afterName) := TakeString(b[2..], MAX_FILENAME_LENGTH).value;
      var (modeName, afterMode) := TakeString(afterName, MAX_STRING_LENGTH).value;
      ParsedOptionsOk(afterMode);
    } else if p.OptionAck? {
      ParsedOptionsOk(b[2..]);
    }
  }

  lemma EmptyOackTooShort(order: seq<Bytes>)
    requires Enumerates(order, map[])
    ensures |Print(OptionAck(map[]), order)| == 2
  {
    NothingListed(order, map[]);
  }

  /** The codec loses nothing on exactly the sendable packets that fit in a datagram. */
  lemma RoundTrip(p: Packet, order: seq<Bytes>)
    requires Enumerates(order, OptionsOf(p))
    ensures Parse(Print(p, order)) == Some(p) <==> Sendable(p) && |Print(p, order)| <= MAX_PACKET_SIZE
  {
    if Parse(Print(p, order)) == Some(p) {
      ParsedSendable(Print(p, order));
      if p == OptionAck(map[]) {
        EmptyOackTooShort(order);
      }
    } else if Sendable(p) && |Print(p, order)| <= MAX_PACKET_SIZE {
      SendableRoundTrip(p, order);
    }
  }

  // ----- Normalisation

  lemma PrintedLength(b: Bytes, order: seq<Bytes>)
    requires Parse(b).Some? && Enumerates(order, OptionsOf(Parse(b).value))
    ensures |Print(Parse(b).value, order)| <= |b|
  {
    var p := Parse(b).value;
    if p.Request? {
      var (filename, afterName) := TakeString(b[2..], MAX_FILENAME_LENGTH).value;
      var (modeName, afterMode) := TakeString(afterName, MAX_STRING_LENGTH).value;
      ModeTextKnown(modeName);
      ParsedOptionsOk(afterMode);
    } else if p.OptionAck? {
      ParsedOptionsOk(b[2..]);
    }
  }

  /** Printing what was parsed never grows it and is read as the same packet, unless it is an
      OACK without options; DATA and ACK come back byte for byte. */
  lemma Normalisation(b: Bytes, order: seq<Bytes>)
    requires Parse(b).Some? && Enumerates(order, OptionsOf(Parse(b).value))
    ensures |Print(Parse(b).value, order)| <= |b|
    ensures Parse(Print(Parse(b).value, order)) == Parse(b) <==> Parse(b).value != OptionAck(map[])
    ensures Parse(b).value.Data? || Parse(b).value.Ack? ==> Print(Parse(b).value, order) == b
  {
    var p := Parse(b).value;
    PrintedLength(b, order);
    RoundTrip(p, order);
    ParsedSendable(b);
    if p.Data? || p.Ack? {
      assert b == b[..2] + b[2..4] + b[4..];
      assert Be16(FromBe16(b)) == b[..2];
      assert Be16(FromBe16(b[2..])) == b[2..4];
    }
  }

  // An OACK without options is accepted from the wire but prints as a datagram nobody accepts.
  lemma EmptyOack()
    ensures Parse([0, 6, 0, 0]) == Some(OptionAck(map[]))
    ensures Parse(Print(OptionAck(map[]), [])) == None
  {
  }
}
