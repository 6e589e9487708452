/** Bytes, the framing characters of the protocol, and the few sequence facts
    that the other modules share. */
module Bytes {

  type byte = b: int | 0 <= b < 256 witness 0

  const STX: byte := 0x02
  const ETX: byte := 0x03
  const FS: byte := 0x1C
  const TAB: byte := 0x09
  const LF: byte := 0x0A
  const CR: byte := 0x0D
  const SPACE: byte := 0x20
  const QUOTE: byte := 0x22
  const COMMA: byte := 0x2C
  const DASH: byte := 0x2D
  const EQUALS: byte := 0x3D
  const UNDERSCORE: byte := 0x5F

  predicate IsDigit(b: byte) {
    0x30 <= b <= 0x39
  }

  predicate IsAlpha(b: byte) {
    0x41 <= b <= 0x5A || 0x61 <= b <= 0x7A
  }

  /** Alphanumeric or a space. */
  predicate IsAlnumSp(b: byte) {
    IsDigit(b) || IsAlpha(b) || b == SPACE
  }

  /** The characters removed by a trim. */
  predicate IsSpace(b: byte) {
    b == SPACE || 0x09 <= b <= 0x0D
  }

  datatype Option<+T> = None | Some(value: T)

  predicate NoDup<T(==)>(q: seq<T>) {
    forall i, j :: 0 <= i < j < |q| ==> q[i] != q[j]
  }

  /** The queue without its member `x`; the queue itself when `x` is not in it. */
  function Without<T(==)>(q: seq<T>, x: T): (r: seq<T>)
    ensures x !in q ==> r == q
    ensures x in q ==> |r| == |q| - 1
    ensures forall y :: y in r ==> y in q
    ensures forall y :: y in q && y != x ==> y in r
  {
    if q == [] then []
    else if q[0] == x then q[1..]
    else [q[0]] + Without(q[1..], x)
  }

  /** Taking a member out of a duplicate-free queue takes it out for good. */
  lemma {:induction false} WithoutNoDup<T>(q: seq<T>, x: T)
    requires NoDup(q)
    ensures NoDup(Without(q, x))
    ensures x !in Without(q, x)
  {
    if q != [] {
      var t, r := q[1..], Without(q, x);
      assert NoDup(t) && q[0] !in t by {
        assert forall j :: 0 <= j < |t| ==> t[j] == q[j + 1];
      }
      if q[0] != x {
        WithoutNoDup(t, x);
        assert r[1..] == Without(t, x);
        assert forall j :: 1 <= j < |r| ==> r[j] == Without(t, x)[j - 1];
        assert q[0] !in Without(t, x);
      }
    }
  }

  predicate Sorted(s: seq<nat>) {
    forall i, j :: 0 <= i < j < |s| ==> s[i] < s[j]
  }

  /** Position of the first occurrence of `x`, or the length when there is none. */
  function FirstIndex(s: seq<byte>, x: byte): (i: nat)
    ensures i <= |s|
    ensures forall j :: 0 <= j < i ==> s[j] != x
    ensures i < |s| ==> s[i] == x
  {
    if s == [] || s[0] == x then 0 else 1 + FirstIndex(s[1..], x)
  }

  /** Bytes arriving later do not move the first occurrence. */
  lemma FirstIndexExtend(s: seq<byte>, t: seq<byte>, x: byte)
    requires x in s
    ensures FirstIndex(s + t, x) == FirstIndex(s, x) < |s|
  {
    var f, g := FirstIndex(s, x), FirstIndex(s + t, x);
    assert f < |s|;
    assert (s + t)[f] == s[f];
    assert g < |s| ==> (s + t)[g] == s[g];
  }
}
