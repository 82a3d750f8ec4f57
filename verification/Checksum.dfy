/**
 * The Internet checksum: the code's deferred-carry sum in a 32-bit
 * accumulator, and the word-by-word ones' complement sum of RFC 1071 it has to
 * agree with.
 */
module Checksum {
  import opened Bytes

  newtype u32 = x: int | 0 <= x < 0x1_0000_0000

  /** The longest input whose 16-bit words cannot overflow a 32-bit sum. */
  const MAX_SUMMED := 131074

  /** The 16-bit words of the data added up; an odd last byte is the high half of a word. */
  function WordSum(data: seq<byte>): (sum: nat) {
    if data == [] then 0
    else if |data| == 1 then data[0] * 0x100
    else FromBe16(data[0], data[1]) + WordSum(data[2..])
  }

  lemma ModShift(x: int, q: nat)
    ensures (x + 0xFFFF * q) % 0xFFFF == x % 0xFFFF
  {
    if q > 0 {
      ModShift(x, q - 1);
      assert (x + 0xFFFF * q) % 0xFFFF == (x + 0xFFFF * (q - 1) + 0xFFFF) % 0xFFFF;
    }
  }

  lemma FoldOnce(sum: nat)
    ensures (sum % 0x1_0000 + sum / 0x1_0000) % 0xFFFF == sum % 0xFFFF
  {
    var q, r := sum / 0x1_0000, sum % 0x1_0000;
    assert sum == (q + r) + 0xFFFF * q;
    ModShift(q + r, q);
  }

  /** End-around carries, folded in until 16 bits are left. */
  function Fold(sum: nat): (r: u16)
    ensures r % 0xFFFF == sum % 0xFFFF && (r == 0 <==> sum == 0)
  {
    if sum < 0x1_0000 then sum
    else
      FoldOnce(sum);
      Fold(sum % 0x1_0000 + sum / 0x1_0000)
  }

  function InternetChecksum(data: seq<byte>): (c: u16) {
    0xFFFF - Fold(WordSum(data))
  }

  lemma {:induction false} WordSumConcat(a: seq<byte>, b: seq<byte>)
    requires |a| % 2 == 0
    ensures WordSum(a + b) == WordSum(a) + WordSum(b)
  {
    if a == [] {
      assert a + b == b;
    } else {
      assert (a + b)[2..] == a[2..] + b;
      WordSumConcat(a[2..], b);
    }
  }

  /** Three pieces, the first and second of even length. */
  lemma WordSumThree(a: seq<byte>, b: seq<byte>, c: seq<byte>)
    requires |a| % 2 == 0 && |b| % 2 == 0
    ensures WordSum(a + b + c) == WordSum(a) + WordSum(b) + WordSum(c)
  {
    WordSumConcat(a, b);
    WordSumConcat(a + b, c);
  }

  lemma WordSumSnoc(data: seq<byte>, i: nat)
    requires i % 2 == 0 && i + 1 < |data|
    ensures WordSum(data[..i + 2]) == WordSum(data[..i]) + FromBe16(data[i], data[i + 1])
  {
    assert data[..i + 2] == data[..i] + [data[i], data[i + 1]];
    WordSumConcat(data[..i], [data[i], data[i + 1]]);
  }

  method SumPairs(data: seq<byte>) returns (sum: u32)
    requires |data| <= MAX_SUMMED
    ensures sum as int == WordSum(data)
  {
    sum := 0;
    var i, words := 0, 0;
    while i + 1 < |data|
      invariant i == 2 * words && i <= |data|
      invariant sum as int == WordSum(data[..i])
      invariant sum as int <= 0xFFFF * words
    {
      WordSumSnoc(data, i);
      sum := sum + FromBe16(data[i], data[i + 1]) as u32;
      i, words := i + 2, words + 1;
    }
    assert data == data[..i] + data[i..];
    WordSumConcat(data[..i], data[i..]);
    if i < |data| {
      sum := sum + data[i] as u32 * 0x100;
    }
  }

  /** `checksum_words`: no 32-bit addition in it overflows. */
  method ChecksumWords(data: seq<byte>) returns (c: u16)
    requires |data| <= MAX_SUMMED
    ensures c == InternetChecksum(data)
  {
    var sum := SumPairs(data);
    while sum / 0x1_0000 != 0
      invariant Fold(sum as int) == Fold(WordSum(data))
      decreases sum
    {
      sum := sum % 0x1_0000 + sum / 0x1_0000;
    }
    c := 0xFFFF - sum as int;
  }

  /** The bound is exact: two more bytes and the sum can overflow. */
  lemma {:induction false} LongestSummed(data: seq<byte>)
    requires forall i :: 0 <= i < |data| ==> data[i] == 0xFF
    requires |data| % 2 == 0
    ensures WordSum(data) == 0xFFFF * (|data| / 2)
    ensures WordSum(data) < 0x1_0000_0000 <==> |data| <= MAX_SUMMED
  {
    if data != [] {
      LongestSummed(data[2..]);
    }
  }

  // ---- RFC 1071 -----------------------------------------------------------

  /** 16-bit ones' complement addition. */
  function OnesAdd(a: u16, b: u16): (r: u16)
    ensures r % 0xFFFF == (a + b) % 0xFFFF && (r == 0 <==> a == 0 && b == 0)
  {
    if a + b > 0xFFFF then a + b - 0xFFFF else a + b
  }

  function OnesSum(data: seq<byte>): (r: u16) {
    if data == [] then 0
    else if |data| == 1 then FromBe16(data[0], 0)
    else OnesAdd(FromBe16(data[0], data[1]), OnesSum(data[2..]))
  }

  /** A receiver's test: the sum over data and checksum is all ones. */
  predicate Verifies(data: seq<byte>) {
    OnesSum(data) == 0xFFFF
  }

  /** 16-bit values are told apart by their residue and by being zero. */
  lemma SameResidue(x: u16, y: u16)
    requires x % 0xFFFF == y % 0xFFFF && (x == 0 <==> y == 0)
    ensures x == y
  {
  }

  lemma ModSum(w: nat, a: nat, b: nat)
    requires a % 0xFFFF == b % 0xFFFF
    ensures (w + a) % 0xFFFF == (w + b) % 0xFFFF
  {
    var p, q := a / 0xFFFF, b / 0xFFFF;
    ModShift(w + a % 0xFFFF, p);
    ModShift(w + b % 0xFFFF, q);
  }

  /** The deferred-carry sum is the ones' complement sum. */
  lemma {:induction false} FoldIsOnesSum(data: seq<byte>)
    ensures Fold(WordSum(data)) == OnesSum(data)
  {
    if |data| >= 2 {
      var w, rest := FromBe16(data[0], data[1]), WordSum(data[2..]);
      FoldIsOnesSum(data[2..]);
      ModSum(w, rest, Fold(rest));
      SameResidue(Fold(WordSum(data)), OnesSum(data));
    }
  }

  /** `data` with the two bytes at `at` replaced by `c`. */
  function WithField(data: seq<byte>, at: nat, c: u16): (r: seq<byte>)
    requires at + 2 <= |data|
    ensures |r| == |data|
  {
    data[..at] + Be16(c) + data[at + 2..]
  }

  lemma FieldSum(data: seq<byte>, at: nat, c: u16)
    requires at % 2 == 0 && at + 2 <= |data| && data[at] == 0 && data[at + 1] == 0
    ensures WordSum(WithField(data, at, c)) == WordSum(data) + c
  {
    var front, back := data[..at], data[at + 2..];
    var zero: seq<byte> := [0, 0];
    assert data == front + zero + back;
    WordSumThree(front, zero, back);
    WordSumThree(front, Be16(c), back);
    assert WordSum(zero) == 0 && WordSum(Be16(c)) == c;
  }

  lemma ComplementCancels(sum: nat, c: u16)
    requires c == 0xFFFF - Fold(sum) || (c == 0xFFFF && Fold(sum) == 0xFFFF)
    ensures Fold(sum + c) == 0xFFFF
  {
    ModSum(c, sum, Fold(sum));
    assert (sum + c) % 0xFFFF == (c + Fold(sum)) % 0xFFFF == 0;
    SameResidue(Fold(sum + c), 0xFFFF);
  }

  /**
   * Writing the checksum into its zeroed field makes the data verify. Writing
   * all ones instead of a zero checksum, as RFC 768 asks, does so too.
   */
  lemma ChecksumVerifies(data: seq<byte>, at: nat, c: u16)
    requires at % 2 == 0 && at + 2 <= |data| && data[at] == 0 && data[at + 1] == 0
    requires c == InternetChecksum(data) || (c == 0xFFFF && InternetChecksum(data) == 0)
    ensures Verifies(WithField(data, at, c))
  {
    FieldSum(data, at, c);
    ComplementCancels(WordSum(data), c);
    FoldIsOnesSum(WithField(data, at, c));
  }
}
