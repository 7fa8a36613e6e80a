/**
 Which bytes are accepted as which packet, kind by kind, written out byte by byte with the
 protocol's numbers and names as literals.
 */
module Acceptance {
  import opened Wire
  import opened Codec
  import opened CodecTheorems

  // ----- DATA, ACK and ERROR

  lemma TwoBytes(n: U16)
    ensures Be16(n) == [n / 256, n % 256] && FromBe16(Be16(n)) == n
  {
  }

  // The first four bytes are two numbers.
  lemma Header(b: Bytes, op: U16, n: U16, rest: Bytes)
    requires |b| >= 4
    ensures b == [op / 256, op % 256, n / 256, n % 256] + rest
       <==> FromBe16(b) == op && FromBe16(b[2..]) == n && b[4..] == rest
  {
    TwoBytes(op);
    TwoBytes(n);
    assert b == b[..2] + b[2..][..2] + b[4..];
    assert [op / 256, op % 256, n / 256, n % 256] + rest == Be16(op) + Be16(n) + rest;
    if b == Be16(op) + Be16(n) + rest {
      assert b[..2] == Be16(op) && b[2..][..2] == Be16(n) && b[4..] == rest;
    }
  }

  /** DATA: the operation code, the block number with its high byte first, and up to 512 bytes. */
  lemma DataAcceptance(b: Bytes, n: U16, payload: Bytes)
    ensures Parse(b) == Some(Data(n, payload))
       <==> |payload| <= 512 && b == [0, 3, n / 256, n % 256] + payload
  {
    hide ParseRequest, ParseError, ParseOptions;
    if Parse(b).Some? {
      ParsedSendable(b);
    }
    if |b| >= 4 {
      Header(b, 3, n, payload);
      assert [0, 3, n / 256, n % 256] == [3 / 256, 3 % 256, n / 256, n % 256];
    }
  }

  lemma AckAcceptance(b: Bytes, n: U16)
    ensures Parse(b) == Some(Ack(n)) <==> b == [0, 4, n / 256, n % 256]
  {
    hide ParseRequest, ParseError, ParseOptions;
    if Parse(b).Some? {
      ParsedSendable(b);
    }
    if |b| >= 4 {
      Header(b, 4, n, []);
      assert [0, 4, n / 256, n % 256] == [4 / 256, 4 % 256, n / 256, n % 256] + [];
    }
  }

  // The text of an error; what follows the terminator is ignored.
  ghost predicate ErrorText(b: Bytes, code: U16, message: Bytes) {
    exists tail: Bytes :: b == [0, 5, 0, code % 256] + (message + [0] + tail)
  }

  lemma ErrorTextParses(b: Bytes, code: U16, message: Bytes, tail: Bytes)
    requires b == [0, 5, 0, code % 256] + (message + [0] + tail)
    requires |b| <= 516 && code <= 7 && 0 !in message && |message| <= 255
    ensures Parse(b) == Some(Error(code, message))
  {
    hide ParseRequest, ParseOptions;
    Header(b, 5, code, message + [0] + tail);
    TakeStringComplete(message, tail, MAX_ERROR_MESSAGE_LENGTH);
  }

  /** ERROR: a code up to 7 and a terminated message of up to 255 bytes. */
  lemma ErrorAcceptance(b: Bytes, code: U16, message: Bytes)
    ensures Parse(b) == Some(Error(code, message))
       <==> |b| <= 516 && code <= 7 && 0 !in message && |message| <= 255 && ErrorText(b, code, message)
  {
    hide ParseRequest, ParseOptions;
    if Parse(b) == Some(Error(code, message)) {
      ParsedSendable(b);
      var tail := TakeString(b[4..], MAX_ERROR_MESSAGE_LENGTH).value.1;
      Header(b, 5, code, message + [0] + tail);
      assert b == [0, 5, 0, code % 256] + (message + [0] + tail);
    }
    if |b| <= 516 && code <= 7 && 0 !in message && |message| <= 255 && ErrorText(b, code, message) {
      var tail: Bytes :| b == [0, 5, 0, code % 256] + (message + [0] + tail);
      ErrorTextParses(b, code, message, tail);
    }
  }

  // ----- Transfer modes

  // Each letter of `s` is that of one of the two spellings.
  predicate Spells(s: Bytes, lower: Bytes, upper: Bytes)
    requires |lower| == |upper|
  {
    |s| == |lower| && forall i :: 0 <= i < |s| ==> s[i] == lower[i] || s[i] == upper[i]
  }

  // "netascii", "octet" or "mail", each letter in either case.
  predicate IsModeText(s: Bytes, mode: Mode) {
    match mode
    case NetAscii => Spells(s, [110, 101, 116, 97, 115, 99, 105, 105], [78, 69, 84, 65, 83, 67, 73, 73])
    case Octet => Spells(s, [111, 99, 116, 101, 116], [79, 67, 84, 69, 84])
    case Mail => Spells(s, [109, 97, 105, 108], [77, 65, 73, 76])
  }

  lemma LowerSpells(s: Bytes, lower: Bytes, upper: Bytes)
    requires |lower| == |upper|
    requires forall i :: 0 <= i < |lower| ==> 97 <= lower[i] <= 122 && upper[i] == lower[i] - 32
    ensures Lower(s) == lower <==> Spells(s, lower, upper)
  {
    if Spells(s, lower, upper) {
      forall i | 0 <= i < |s|
        ensures Lower(s)[i] == lower[i]
      {
        assert s[i] == lower[i] || s[i] == upper[i];
      }
    }
    if Lower(s) == lower {
      forall i | 0 <= i < |s|
        ensures s[i] == lower[i] || s[i] == upper[i]
      {
        assert Lower(s)[i] == lower[i];
      }
    }
  }

  /** A mode is recognised from exactly the spellings of its name, and printed in lower case. */
  lemma ModeSpelling(s: Bytes, mode: Mode)
    ensures ModeOf(s) == Some(mode) <==> IsModeText(s, mode)
    ensures IsModeText(ModeName(mode), mode) && forall c <- ModeName(mode) :: 97 <= c <= 122
  {
    LowerSpells(s, [110, 101, 116, 97, 115, 99, 105, 105], [78, 69, 84, 65, 83, 67, 73, 73]);
    LowerSpells(s, [111, 99, 116, 101, 116], [79, 67, 84, 69, 84]);
    LowerSpells(s, [109, 97, 105, 108], [77, 65, 73, 76]);
  }

  // ----- Requests and OACK

  // An option: two terminated strings of 1 to 64 bytes.
  predicate IsOption(p: Pair) {
    && 1 <= |p.0| <= 64 && 0 !in p.0
    && 1 <= |p.1| <= 64 && 0 !in p.1
  }

  // At most 16 options; an empty name, where another option could follow, ends the list.
  ghost predicate IsOptionText(text: Bytes, ps: seq<Pair>) {
    && |ps| <= 16 && (forall p <- ps :: IsOption(p))
    && exists tail: Bytes :: text == EncodePairs(ps) + tail && (tail != [] ==> tail[0] == 0 && |ps| < 16)
  }

  lemma OptionTextIsList(text: Bytes, ps: seq<Pair>) returns (tail: Bytes)
    requires IsOptionText(text, ps)
    ensures OptionList(text, 16, ps, tail)
  {
    tail :| text == EncodePairs(ps) + tail && (tail != [] ==> tail[0] == 0 && |ps| < 16);
    assert forall p <- ps :: IsOption(p);
  }

  lemma OptionsParse(text: Bytes, options: Options)
    ensures ParseOptions(text) == Some(options) <==> exists ps :: IsOptionText(text, ps) && ToMap(ps) == options
  {
    hide TakePairs, ToMap, EncodePairs;
    if ParseOptions(text) == Some(options) {
      var ps := TakePairs(text, 16).value;
      var tail := TakePairsSound(text, 16);
      assert forall p <- ps :: PairOk(p);
      assert text == EncodePairs(ps) + tail && (tail != [] ==> tail[0] == 0 && |ps| < 16);
      assert IsOptionText(text, ps);
    }
    if exists ps :: IsOptionText(text, ps) && ToMap(ps) == options {
      var ps :| IsOptionText(text, ps) && ToMap(ps) == options;
      var tail := OptionTextIsList(text, ps);
      TakePairsComplete(ps, tail, 16);
    }
  }

  // The text of a read or write request.
  ghost predicate RequestText(b: Bytes, write: bool, filename: Bytes, mode: Mode, ps: seq<Pair>) {
    && 1 <= |filename| <= 255 && 0 !in filename
    && exists modeName: Bytes, options: Bytes ::
         && b == [0, if write then 2 else 1] + (filename + [0] + (modeName + [0] + options))
         && IsModeText(modeName, mode) && IsOptionText(options, ps)
  }

  lemma ModeTextIsText(s: Bytes, mode: Mode)
    requires IsModeText(s, mode)
    ensures ModeOf(s) == Some(mode) && Text(s, MAX_STRING_LENGTH)
  {
    ModeSpelling(s, mode);
    ModeTextKnown(s);
  }

  /** A request text is read as what it spells, the last of several equal option names winning. */
  lemma RequestTextParses(b: Bytes, write: bool, filename: Bytes, mode: Mode, ps: seq<Pair>)
    requires RequestText(b, write, filename, mode, ps) && |b| <= 516
    ensures Parse(b) == Some(Request(write, filename, mode, ToMap(ps)))
  {
    hide IsModeText, IsOptionText, ParseOptions, ModeOf, ToMap, ParseError;
    var modeName: Bytes, options: Bytes :|
      && b == [0, if write then 2 else 1] + (filename + [0] + (modeName + [0] + options))
      && IsModeText(modeName, mode) && IsOptionText(options, ps);
    assert b[2..] == filename + [0] + (modeName + [0] + options);
    TakeStringComplete(filename, modeName + [0] + options, MAX_FILENAME_LENGTH);
    ModeTextIsText(modeName, mode);
    TakeStringComplete(modeName, options, MAX_STRING_LENGTH);
    OptionsParse(options, ToMap(ps));
    assert FromBe16(b) == if write then 2 else 1;
  }

  lemma AcceptedRequestText(b: Bytes) returns (ps: seq<Pair>)
    requires Parse(b).Some? && Parse(b).value.Request?
    ensures var p := Parse(b).value;
            RequestText(b, p.write, p.filename, p.mode, ps) && ToMap(ps) == p.options
  {
    hide IsModeText, IsOptionText, ParseOptions, ModeOf, ToMap, ParseError;
    var p := Parse(b).value;
    ParsedSendable(b);
    var (filename, afterName) := TakeString(b[2..], MAX_FILENAME_LENGTH).value;
    var (modeName, options) := TakeString(afterName, MAX_STRING_LENGTH).value;
    ModeSpelling(modeName, p.mode);
    OptionsParse(options, p.options);
    ps :| IsOptionText(options, ps) && ToMap(ps) == p.options;
    assert b[..2] == Be16(if p.write then 2 else 1);
    assert b == b[..2] + b[2..];
    assert b == [0, if p.write then 2 else 1] + (filename + [0] + (modeName + [0] + options));
  }

  /** Bytes are accepted as a given request exactly when they spell it in at most 516 bytes. */
  lemma RequestAcceptance(b: Bytes, write: bool, filename: Bytes, mode: Mode, options: Options)
    ensures Parse(b) == Some(Request(write, filename, mode, options))
       <==> |b| <= 516 && exists ps :: RequestText(b, write, filename, mode, ps) && ToMap(ps) == options
  {
    hide RequestText, ParseRequest, ParseOptions, ParseError, ToMap;
    if Parse(b) == Some(Request(write, filename, mode, options)) {
      var ps := AcceptedRequestText(b);
    }
    if |b| <= 516 && exists ps :: RequestText(b, write, filename, mode, ps) && ToMap(ps) == options {
      var ps :| RequestText(b, write, filename, mode, ps) && ToMap(ps) == options;
      RequestTextParses(b, write, filename, mode, ps);
    }
  }

  /** The same for OACK, which needs at least four bytes. */
  lemma OackAcceptance(b: Bytes, options: Options)
    ensures Parse(b) == Some(OptionAck(options))
       <==> 4 <= |b| <= 516 && b[..2] == [0, 6] && exists ps :: IsOptionText(b[2..], ps) && ToMap(ps) == options
  {
    hide IsOptionText, ParseOptions, ParseRequest, ParseError, ToMap;
    if Parse(b).Some? {
      ParsedSendable(b);
    }
    if |b| >= 4 {
      OptionsParse(b[2..], options);
    }
  }
}
