/** Octets and the 16-bit big-endian fields every wire format of the client uses. */
module Bytes {
  type byte = x: int | 0 <= x < 0x100
  type u16 = x: int | 0 <= x < 0x1_0000

  function FromBe16(hi: byte, lo: byte): (n: u16) {
    hi * 0x100 + lo
  }

  /** Two octets, most significant first (`to_be_bytes`). */
  function Be16(n: u16): (b: seq<byte>)
    ensures |b| == 2 && FromBe16(b[0], b[1]) == n
  {
    [n / 0x100, n % 0x100]
  }

  lemma Be16Back(hi: byte, lo: byte)
    ensures Be16(FromBe16(hi, lo)) == [hi, lo]
  {
  }

  function Concat<T>(parts: seq<seq<T>>): (whole: seq<T>) {
    if parts == [] then [] else parts[0] + Concat(parts[1..])
  }

  lemma {:induction false} ConcatAppend<T>(a: seq<seq<T>>, b: seq<seq<T>>)
    ensures Concat(a + b) == Concat(a) + Concat(b)
  {
    if a == [] {
      assert a + b == b;
    } else {
      assert (a + b)[1..] == a[1..] + b;
      ConcatAppend(a[1..], b);
    }
  }

  lemma ConcatOne<T>(part: seq<T>)
    ensures Concat([part]) == part
  {
    assert Concat([part]) == part + Concat([]);
  }

  lemma PrefixBehind<T>(front: seq<T>, a: seq<T>, b: seq<T>)
    requires a <= b
    ensures front + a <= front + b
  {
  }

  lemma Assoc<T>(a: seq<T>, b: seq<T>, c: seq<T>)
    ensures a + b + c == a + (b + c)
  {
  }

  /** Part `k` stands in the whole, right behind the parts before it. */
  lemma {:induction false} ConcatSplits<T>(parts: seq<seq<T>>, k: nat)
    requires k < |parts|
    ensures Concat(parts[..k]) + parts[k] <= Concat(parts)
  {
    if k == 0 {
      assert parts[..0] == [];
      assert [] + parts[0] == parts[0];
    } else {
      assert parts[..k][1..] == parts[1..][..k - 1];
      ConcatSplits(parts[1..], k - 1);
      Assoc(parts[0], Concat(parts[1..][..k - 1]), parts[k]);
      PrefixBehind(parts[0], Concat(parts[1..][..k - 1]) + parts[k], Concat(parts[1..]));
    }
  }

  lemma PrefixExtends<T>(a: seq<T>, b: seq<T>, c: seq<T>)
    requires a <= b
    ensures a <= b + c
  {
  }

  /** True when `needle` occurs in `text` as a contiguous run. */
  predicate Contains<T(==)>(text: seq<T>, needle: seq<T>) {
    exists i :: 0 <= i <= |text| - |needle| && text[i..][..|needle|] == needle
  }
}
