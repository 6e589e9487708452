/** Decimal message ids: how they are printed and how they are read back. */
module Decimal {
  import opened Bytes

  const MAX_UINT64: nat := 0xFFFF_FFFF_FFFF_FFFF

  /** Decimal digits of `n`, most significant first, no leading zeros. */
  function Print(n: nat): (s: seq<byte>)
    ensures |s| >= 1
    ensures n >= 10 ==> |s| >= 2
    ensures forall i :: 0 <= i < |s| ==> IsDigit(s[i])
  {
    if n < 10 then [0x30 + n] else Print(n / 10) + [0x30 + n % 10]
  }

  function DigitValue(b: byte): nat
    requires IsDigit(b)
  {
    b - 0x30
  }

  /** The number a digit string denotes. */
  function Value(s: seq<byte>): (n: nat)
    requires forall i :: 0 <= i < |s| ==> IsDigit(s[i])
  {
    if s == [] then 0 else 10 * Value(s[..|s| - 1]) + DigitValue(s[|s| - 1])
  }

  /** How many digits lead the text. */
  function DigitRun(s: seq<byte>): (k: nat)
    ensures k <= |s|
    ensures forall i :: 0 <= i < k ==> IsDigit(s[i])
    ensures k < |s| ==> !IsDigit(s[k])
  {
    if s == [] || !IsDigit(s[0]) then 0 else 1 + DigitRun(s[1..])
  }

  /** Reads a number off the front: the longest run of digits. There must be at
      least one, and the value must fit in 64 bits. */
  function ReadUint(s: seq<byte>): (r: Option<(nat, seq<byte>)>)
    ensures r.Some? ==> |r.value.1| < |s|
  {
    var k := DigitRun(s);
    if k == 0 || Value(s[..k]) > MAX_UINT64 then None else Some((Value(s[..k]), s[k..]))
  }

  lemma {:induction false} PrintValue(n: nat)
    ensures Value(Print(n)) == n
  {
    if n >= 10 {
      PrintValue(n / 10);
      var s := Print(n);
      assert s[..|s| - 1] == Print(n / 10);
    } else {
      assert Print(n)[..0] == [];
    }
  }

  /** Printing and reading are inverse, whatever non-digit follows. */
  lemma ReadPrinted(n: nat, tail: seq<byte>)
    requires n <= MAX_UINT64
    requires tail != [] && !IsDigit(tail[0])
    ensures ReadUint(Print(n) + tail) == Some((n, tail))
  {
    var p := Print(n);
    var s := p + tail;
    var k := DigitRun(s);
    assert forall i :: 0 <= i < |p| ==> s[i] == p[i];
    assert s[|p|] == tail[0];
    assert s[..k] == p;
    assert s[k..] == tail;
    PrintValue(n);
  }
}
