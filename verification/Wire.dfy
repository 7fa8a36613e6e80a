/**
 Bytes, big-endian 16-bit fields, NUL-terminated strings and the protocol's limits
 (include/tftp/tftp_common.h), shared by every other module.
 */
module Wire {

  datatype Option<+T> = None | Some(value: T)

  type Byte = b: int | 0 <= b < 256
  type Bytes = seq<Byte>
  type U16 = n: int | 0 <= n < 0x1_0000

  const MAX_PACKET_SIZE: nat := 516
  const MAX_DATA_SIZE: nat := 512
  const MIN_PACKET_SIZE: nat := 4
  const MAX_FILENAME_LENGTH: nat := 255
  const MAX_STRING_LENGTH: nat := 255
  const MAX_ERROR_MESSAGE_LENGTH: nat := 255
  const MAX_OPTION_LENGTH: nat := 64
  const MAX_OPTIONS_COUNT: nat := 16

  // The value a 64-bit size_t takes as the "string could not be read" sentinel.
  const SIZE_MAX: nat := 0xFFFF_FFFF_FFFF_FFFF

  // htons followed by memcpy: most significant byte first.
  function Be16(v: U16): (b: Bytes)
    ensures |b| == 2
  {
    [v / 256, v % 256]
  }

  // memcpy followed by ntohs.
  function FromBe16(b: Bytes): (v: U16)
    requires |b| >= 2
    ensures Be16(v) == b[..2]
  {
    (b[0] as int) * 256 + (b[1] as int)
  }

  // A string that can be carried NUL-terminated within a limit.
  predicate Text(s: Bytes, max: nat) {
    0 !in s && |s| <= max
  }

  // Splits a NUL-terminated string of at most `max` bytes off the front of `rest`.
  function TakeString(rest: Bytes, max: nat): (r: Option<(Bytes, Bytes)>)
    ensures r.Some? ==> Text(r.value.0, max) && rest == r.value.0 + [0] + r.value.1
    ensures r.Some? ==> |r.value.1| == |rest| - |r.value.0| - 1
  {
    if rest == [] then None
    else if rest[0] == 0 then Some(([], rest[1..]))
    else if max == 0 then None
    else
      match TakeString(rest[1..], max - 1)
      case None => None
      case Some((s, t)) => Some(([rest[0]] + s, t))
  }

  // The converse: whatever is written as a string is read back, and nothing else is.
  lemma {:induction false} TakeStringComplete(s: Bytes, t: Bytes, max: nat)
    requires Text(s, max)
    ensures TakeString(s + [0] + t, max) == Some((s, t))
  {
    var rest := s + [0] + t;
    if s == [] {
      assert rest[1..] == t;
    } else {
      assert rest[1..] == s[1..] + [0] + t;
      TakeStringComplete(s[1..], t, max - 1);
      assert [s[0]] + s[1..] == s;
    }
  }
}
