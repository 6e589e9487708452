/** Key/value text: one `key=value` line per pair, values quoted by surrounding
    and doubling. Printing, unquoting and decoding. */
module KeyValue {
  import opened Bytes

  type Text = seq<byte>

  datatype Pair = Pair(key: Text, value: Text)

  /** Decoded values: a key with an empty unquoted value has no value at all. */
  type Dict = map<Text, Option<Text>>

  // ----- quoting -----

  function Double(s: Text): Text {
    if s == [] then []
    else if s[0] == QUOTE then [QUOTE, QUOTE] + Double(s[1..])
    else [s[0]] + Double(s[1..])
  }

  function Quoted(s: Text): Text {
    [QUOTE] + Double(s) + [QUOTE]
  }

  predicate Surrounded(s: Text) {
    |s| >= 2 && s[0] == QUOTE && s[|s| - 1] == QUOTE
  }

  /** A quote swallows a quote that follows it. */
  function Collapse(s: Text): (r: Text)
    ensures |r| <= |s|
    decreases |s|
  {
    if s == [] then []
    else if |s| >= 2 && s[0] == QUOTE && s[1] == QUOTE then [QUOTE] + Collapse(s[2..])
    else [s[0]] + Collapse(s[1..])
  }

  function Stripped(s: Text): Text {
    if Surrounded(s) then s[1..|s| - 1] else s
  }

  function Unquote(s: Text): Option<Text> {
    if s == [] then None else Some(Collapse(Stripped(s)))
  }

  lemma {:induction false} CollapseDouble(s: Text)
    ensures Collapse(Double(s)) == s
  {
    if s != [] {
      CollapseDouble(s[1..]);
      if s[0] == QUOTE {
        assert Double(s)[2..] == Double(s[1..]);
      } else {
        assert Double(s)[1..] == Double(s[1..]);
      }
    }
  }

  /** Unquoting inverts quoting on every text: empty, all quotes, quote at either end. */
  lemma UnquoteQuoted(s: Text)
    ensures Unquote(Quoted(s)) == Some(s)
  {
    var q := Quoted(s);
    assert q[1..|q| - 1] == Double(s);
    CollapseDouble(s);
  }

  predicate HasPair(s: Text) {
    exists i :: 0 <= i < |s| - 1 && s[i] == QUOTE && s[i + 1] == QUOTE
  }

  lemma {:induction false} CollapseKeeps(s: Text)
    ensures Collapse(s) == s <==> !HasPair(s)
    ensures HasPair(s) ==> |Collapse(s)| < |s|
    decreases |s|
  {
    if s != [] {
      if |s| >= 2 && s[0] == QUOTE && s[1] == QUOTE {
        assert HasPair(s);
      } else {
        var t := s[1..];
        CollapseKeeps(t);
        assert HasPair(s) ==> HasPair(t) by {
          if HasPair(s) {
            var i :| 0 <= i < |s| - 1 && s[i] == QUOTE && s[i + 1] == QUOTE;
            assert t[i - 1] == QUOTE && t[i] == QUOTE;
          }
        }
        assert HasPair(t) ==> HasPair(s) by {
          if HasPair(t) {
            var i :| 0 <= i < |t| - 1 && t[i] == QUOTE && t[i + 1] == QUOTE;
            assert s[i + 1] == QUOTE && s[i + 2] == QUOTE;
          }
        }
        assert s == [s[0]] + t;
        assert Collapse(s)[1..] == Collapse(t);
      }
    }
  }

  /** A value printed without quotes is read back unchanged exactly when it is
      nonempty, not surrounded by quotes, and has no two adjacent quotes. */
  lemma UnquoteBare(s: Text)
    ensures Unquote(s) == Some(s) <==> s != [] && !Surrounded(s) && !HasPair(s)
  {
    CollapseKeeps(Stripped(s));
    if Surrounded(s) {
      assert |Stripped(s)| < |s|;
    }
  }

  /** The first `i` characters of `s` account for the first `cnt` of its
      unquoted form. */
  predicate Tally(s: Text, i: nat, cnt: nat) {
    && cnt <= |Collapse(s)|
    && Collapse(s)[cnt..] == if i < |s| then Collapse(s[i..]) else []
  }

  lemma TallyStart(s: Text)
    ensures Tally(s, 0, 0)
  {
    assert s[0..] == s;
  }

  lemma TallyStep(s: Text, i: nat, cnt: nat)
    requires i < |s| && Tally(s, i, cnt)
    ensures cnt < |Collapse(s)| && Collapse(s)[cnt] == s[i]
    ensures Tally(s, if i + 1 < |s| && s[i] == QUOTE && s[i + 1] == QUOTE then i + 2 else i + 1, cnt + 1)
    ensures i + 1 == |s| ==> Tally(s, i + 2, cnt + 1)
  {
    var all := Collapse(s);
    assert all[cnt..][1..] == all[cnt + 1..];
    assert s[i..][1..] == s[i + 1..];
    if i + 1 < |s| {
      assert s[i..][2..] == s[i + 2..];
    }
  }

  lemma TallyEnd(s: Text, i: nat, cnt: nat)
    requires i >= |s| && Tally(s, i, cnt)
    ensures cnt == |Collapse(s)|
  {
    assert |Collapse(s)[cnt..]| == 0;
  }

  /** The loop of the unquoter. The text is a terminated string, so the look-ahead
      at the last character reads the terminator or the closing quote. */
  method UnquoteLoop(text: Text) returns (r: Option<Text>)
    ensures r == Unquote(text)
  {
    if text == [] {
      return None;
    }
    var str := text + [0];
    var start, len := 0, |text|;
    if len >= 2 && str[0] == QUOTE && str[len - 1] == QUOTE {
      start := 1;
      len := len - 2;
    }
    ghost var inner := Stripped(text);
    assert |inner| == len && forall k :: 0 <= k < len ==> str[start + k] == inner[k];
    var ret := new byte[len + 1];
    var cnt := UnquoteInto(str, start, inner, len, ret);
    r := Some(ret[..cnt]);
  }

  /** The copying loop: writes the unquoted characters and says how many. */
  method UnquoteInto(str: seq<byte>, start: nat, ghost inner: Text, len: nat, ret: array<byte>) returns (cnt: nat)
    requires start + len < |str| && len == |inner| && ret.Length == len + 1
    requires forall k :: 0 <= k < len ==> str[start + k] == inner[k]
    requires str[start + len] == 0 || str[start + len] == QUOTE
    modifies ret
    ensures cnt <= len && ret[..cnt] == Collapse(inner)
  {
    hide Tally;
    hide Collapse;
    TallyStart(inner);
    cnt := 0;
    var i := 0;
    while i < len
      invariant 0 <= cnt <= i <= len + 1 && cnt <= len
      invariant cnt <= |Collapse(inner)| && Tally(inner, i, cnt)
      invariant forall k :: 0 <= k < cnt ==> ret[k] == Collapse(inner)[k]
    {
      TallyStep(inner, i, cnt);
      ret[cnt] := str[start + i];
      cnt := cnt + 1;
      if str[start + i] == QUOTE && str[start + i + 1] == QUOTE {
        i := i + 1;
      }
      i := i + 1;
    }
    TallyEnd(inner, i, cnt);
  }

  // ----- trimming and case -----

  function TrimLeft(s: Text): (r: Text)
    ensures |r| <= |s|
    ensures r != [] ==> !IsSpace(r[0])
    ensures s != [] && !IsSpace(s[0]) ==> r == s
    ensures forall b :: b in r ==> b in s
  {
    if s != [] && IsSpace(s[0]) then TrimLeft(s[1..]) else s
  }

  function TrimRight(s: Text): (r: Text)
    ensures |r| <= |s|
    ensures s != [] && !IsSpace(s[|s| - 1]) ==> r == s
    ensures forall b :: b in r ==> b in s
  {
    if s != [] && IsSpace(s[|s| - 1]) then TrimRight(s[..|s| - 1]) else s
  }

  function Trim(s: Text): (r: Text)
    ensures |r| <= |s|
    ensures forall b :: b in r ==> b in s
  {
    TrimRight(TrimLeft(s))
  }

  function FoldByte(b: byte): byte {
    if 0x41 <= b <= 0x5A then b + 0x20 else b
  }

  /** Keys are compared without regard to case. */
  function Fold(s: Text): (r: Text)
    ensures |r| == |s|
  {
    seq(|s|, i requires 0 <= i < |s| => FoldByte(s[i]))
  }

  predicate Blank(b: byte) {
    b == 0x20 || b == 0x09 || b == 0x0A || b == 0x0B || b == 0x0C || b == 0x0D
  }

  /** From `i` to `j` stands what a trim leaves of `s`. */
  predicate Inner(s: Text, i: nat, j: nat) {
    && i <= j <= |s|
    && (forall k :: 0 <= k < i ==> Blank(s[k]))
    && (forall k :: j <= k < |s| ==> Blank(s[k]))
    && (i < j ==> !Blank(s[i]) && !Blank(s[j - 1]))
  }

  lemma {:induction false} LeftOf(s: Text) returns (i: nat)
    ensures i <= |s| && TrimLeft(s) == s[i..]
    ensures (forall k :: 0 <= k < i ==> Blank(s[k])) && (i < |s| ==> !Blank(s[i]))
  {
    if s != [] && IsSpace(s[0]) {
      i := LeftOf(s[1..]);
      i := i + 1;
      assert forall k :: 1 <= k < i ==> s[k] == s[1..][k - 1];
    } else {
      i := 0;
    }
  }

  lemma {:induction false} RightOf(s: Text) returns (j: nat)
    ensures j <= |s| && TrimRight(s) == s[..j]
    ensures (forall k :: j <= k < |s| ==> Blank(s[k])) && (0 < j ==> !Blank(s[j - 1]))
    decreases |s|
  {
    if s != [] && IsSpace(s[|s| - 1]) {
      j := RightOf(s[..|s| - 1]);
      assert s[..|s| - 1][..j] == s[..j];
    } else {
      j := |s|;
    }
  }

  /** A trim takes off all white space at both edges and nothing else. */
  lemma TrimMeaning(s: Text, i: nat, j: nat)
    requires Inner(s, i, j)
    ensures Trim(s) == s[i..j]
  {
    var l := LeftOf(s);
    var t := TrimLeft(s);
    var r := RightOf(t);
    assert t[..r] == s[l..l + r];
    if i < j {
      assert l == i;
      assert t[j - i - 1] == s[j - 1];
      assert r == j - i;
    } else {
      assert l == |s|;
    }
  }

  /** Two keys count as the same when they differ at most in the case of letters. */
  lemma FoldMeaning(a: Text, b: Text)
    ensures Fold(a) == Fold(b) <==>
            |a| == |b| && forall i :: 0 <= i < |a| ==>
              a[i] == b[i] || (IsAlpha(a[i]) && IsAlpha(b[i]) && (a[i] == b[i] + 0x20 || b[i] == a[i] + 0x20))
  {
    if |a| == |b| {
      assert forall i :: 0 <= i < |a| ==> Fold(a)[i] == FoldByte(a[i]) && Fold(b)[i] == FoldByte(b[i]);
    }
  }

  // ----- splitting outside quotes -----

  /** Does scanning `s` end inside a quoted section? */
  predicate EndsInside(s: Text, inside: bool) {
    if s == [] then inside else EndsInside(s[1..], inside != (s[0] == QUOTE))
  }

  /** No delimiter outside quotes. */
  predicate Solid(delim: byte, s: Text, inside: bool) {
    s == [] || ((s[0] != delim || inside) && Solid(delim, s[1..], inside != (s[0] == QUOTE)))
  }

  /** The pieces between the delimiters that stand outside quotes. */
  function Explode(delim: byte, s: Text, inside: bool): (r: seq<Text>)
    ensures |r| >= 1
  {
    if s == [] then [[]]
    else if s[0] == delim && !inside then [[]] + Explode(delim, s[1..], inside)
    else
      var r := Explode(delim, s[1..], inside != (s[0] == QUOTE));
      [[s[0]] + r[0]] + r[1..]
  }

  /** Two pieces, cut at the first delimiter outside quotes. */
  function Cut(delim: byte, s: Text, inside: bool): (r: Option<(Text, Text)>)
    ensures r.None? <==> Solid(delim, s, inside)
  {
    if s == [] then None
    else if s[0] == delim && !inside then Some(([], s[1..]))
    else
      match Cut(delim, s[1..], inside != (s[0] == QUOTE))
      case None => None
      case Some(kv) => Some(([s[0]] + kv.0, kv.1))
  }

  lemma {:induction false} ScanConcat(delim: byte, a: Text, b: Text, inside: bool)
    ensures EndsInside(a + b, inside) == EndsInside(b, EndsInside(a, inside))
    ensures Solid(delim, a + b, inside) <==> Solid(delim, a, inside) && Solid(delim, b, EndsInside(a, inside))
  {
    if a == [] {
      assert a + b == b;
    } else {
      assert (a + b)[1..] == a[1..] + b;
      ScanConcat(delim, a[1..], b, inside != (a[0] == QUOTE));
    }
  }

  lemma {:induction false} ExplodeSolid(delim: byte, a: Text, inside: bool)
    requires Solid(delim, a, inside)
    ensures Explode(delim, a, inside) == [a]
  {
    if a != [] {
      ExplodeSolid(delim, a[1..], inside != (a[0] == QUOTE));
      assert [a[0]] + a[1..] == a;
    }
  }

  lemma {:induction false} ExplodeConcat(delim: byte, a: Text, b: Text, inside: bool)
    requires delim != QUOTE
    requires Solid(delim, a, inside) && !EndsInside(a, inside)
    ensures Explode(delim, a + [delim] + b, inside) == [a] + Explode(delim, b, false)
  {
    var s := a + [delim] + b;
    if a == [] {
      assert s[1..] == b;
    } else {
      assert s[1..] == a[1..] + [delim] + b;
      ExplodeConcat(delim, a[1..], b, inside != (a[0] == QUOTE));
      assert [a[0]] + a[1..] == a;
    }
  }

  lemma {:induction false} CutConcat(delim: byte, a: Text, b: Text, inside: bool)
    requires Solid(delim, a, inside) && !EndsInside(a, inside)
    ensures Cut(delim, a + [delim] + b, inside) == Some((a, b))
  {
    var s := a + [delim] + b;
    if a == [] {
      assert s[1..] == b;
    } else {
      assert s[1..] == a[1..] + [delim] + b;
      CutConcat(delim, a[1..], b, inside != (a[0] == QUOTE));
      assert [a[0]] + a[1..] == a;
    }
  }

  /** Text without quotes and without the delimiter is one piece. */
  lemma {:induction false} PlainScan(delim: byte, a: Text)
    requires QUOTE !in a && delim !in a
    ensures Solid(delim, a, false) && !EndsInside(a, false)
  {
    if a != [] {
      PlainScan(delim, a[1..]);
    }
  }

  lemma {:induction false} DoubleScan(delim: byte, s: Text)
    requires delim != QUOTE
    ensures Solid(delim, Double(s), true) && EndsInside(Double(s), true)
  {
    if s != [] {
      var d, r := Double(s), Double(s[1..]);
      DoubleScan(delim, s[1..]);
      if s[0] == QUOTE {
        assert d[1..] == [QUOTE] + r;
        assert d[1..][1..] == r;
      } else {
        assert d[1..] == r;
      }
    }
  }

  /** A quoted value is one piece for every delimiter, whatever it contains. */
  lemma QuotedScan(delim: byte, s: Text)
    requires delim != QUOTE
    ensures Solid(delim, Quoted(s), false) && !EndsInside(Quoted(s), false)
  {
    DoubleScan(delim, s);
    ScanConcat(delim, Double(s), [QUOTE], true);
    assert Quoted(s)[1..] == Double(s) + [QUOTE];
    assert [QUOTE][1..] == [];
  }

  // ----- printing -----

  /** Only letters, digits and spaces: printed without quotes. */
  predicate Bare(v: Text) {
    forall i :: 0 <= i < |v| ==> IsAlnumSp(v[i])
  }

  function PrintValue(v: Text): Text {
    if Bare(v) then v else Quoted(v)
  }

  function Line(p: Pair): Text {
    p.key + [EQUALS] + PrintValue(p.value)
  }

  function Encode(ps: seq<Pair>): Text {
    if ps == [] then []
    else if |ps| == 1 then Line(ps[0])
    else Line(ps[0]) + [LF] + Encode(ps[1..])
  }

  // ----- decoding -----

  /** What one line contributes, or None for a line without `=`. */
  function DecodeLine(line: Text): Option<(Text, Option<Text>)> {
    match Cut(EQUALS, line, false)
    case None => None
    case Some((k, v)) => Some((Fold(Trim(k)), Unquote(Trim(v))))
  }

  function DecodeLines(lines: seq<Text>, m: Dict): Option<Dict> {
    if lines == [] then Some(m)
    else if lines[0] == [] then DecodeLines(lines[1..], m)
    else
      match DecodeLine(lines[0])
      case None => None
      case Some((k, v)) => DecodeLines(lines[1..], m[k := v])
  }

  function Decode(text: Text): Option<Dict> {
    if text == [] then None else DecodeLines(Explode(LF, text, false), map[])
  }

  /** The decoder's loop over the lines, leaving at the first bad one. */
  method DecodeLoop(text: Text) returns (r: Option<Dict>)
    ensures r == Decode(text)
  {
    if text == [] {
      return None;
    }
    var kvs := Explode(LF, text, false);
    var dict: Dict := map[];
    var i := 0;
    while i < |kvs|
      invariant 0 <= i <= |kvs|
      invariant DecodeLines(kvs[i..], dict) == Decode(text)
    {
      assert kvs[i..][1..] == kvs[i + 1..];
      if kvs[i] != [] {
        var kv := Cut(EQUALS, kvs[i], false);
        if kv.None? {
          return None;
        }
        var temp := UnquoteLoop(Trim(kv.value.1));
        dict := dict[Fold(Trim(kv.value.0)) := temp];
      }
      i := i + 1;
    }
    r := Some(dict);
  }

  /** Decoding is all or nothing: it succeeds exactly when every nonblank line
      has a `=` outside quotes, however many good lines come before a bad one. */
  lemma {:induction false} DecodeAllOrNothing(lines: seq<Text>, m: Dict)
    ensures DecodeLines(lines, m).Some?
            <==> forall i :: 0 <= i < |lines| && lines[i] != [] ==> !Solid(EQUALS, lines[i], false)
  {
    if lines != [] {
      var t := lines[1..];
      assert forall i :: 1 <= i < |lines| ==> lines[i] == t[i - 1];
      assert forall i :: 0 <= i < |t| ==> t[i] == lines[i + 1];
      if lines[0] == [] {
        DecodeAllOrNothing(t, m);
      } else if DecodeLine(lines[0]).Some? {
        var (k, v) := DecodeLine(lines[0]).value;
        DecodeAllOrNothing(t, m[k := v]);
      }
    }
  }

  /** The whole reply decodes exactly when it is not empty and each of its nonblank
      lines has a `=` outside quotes. */
  lemma DecodesExactly(text: Text)
    ensures Decode(text).Some? <==> text != [] && AllAssign(Explode(LF, text, false))
  {
    DecodeAllOrNothing(Explode(LF, text, false), map[]);
    hide Explode, DecodeLines, Solid;
  }

  /** Each nonblank line has a `=` outside quotes. */
  predicate AllAssign(lines: seq<Text>) {
    forall i :: 0 <= i < |lines| && lines[i] != [] ==> !Solid(EQUALS, lines[i], false)
  }

  /** Does line `i` set key `k`? */
  predicate Sets(lines: seq<Text>, i: nat, k: Text) {
    i < |lines| && lines[i] != [] && DecodeLine(lines[i]).Some? && DecodeLine(lines[i]).value.0 == k
  }

  /** The value of a key is the one of the last line that sets it. */
  lemma {:induction false} LastLineWins(lines: seq<Text>, m: Dict, i: nat, k: Text)
    requires DecodeLines(lines, m).Some?
    requires Sets(lines, i, k) && forall j: nat :: i < j ==> !Sets(lines, j, k)
    ensures k in DecodeLines(lines, m).value
    ensures DecodeLines(lines, m).value[k] == DecodeLine(lines[i]).value.1
  {
    var t := lines[1..];
    var m1 := if lines[0] == [] then m else m[DecodeLine(lines[0]).value.0 := DecodeLine(lines[0]).value.1];
    if i > 0 {
      forall j: nat | i - 1 < j ensures !Sets(t, j, k) {
        assert !Sets(lines, j + 1, k);
      }
      LastLineWins(t, m1, i - 1, k);
    } else {
      forall j: nat ensures !Sets(t, j, k) {
        assert !Sets(lines, j + 1, k);
      }
      UnsetKeyStays(t, m1, k);
    }
  }

  lemma {:induction false} UnsetKeyStays(lines: seq<Text>, m: Dict, k: Text)
    requires DecodeLines(lines, m).Some? && k in m
    requires forall j: nat :: !Sets(lines, j, k)
    ensures k in DecodeLines(lines, m).value && DecodeLines(lines, m).value[k] == m[k]
  {
    if lines != [] {
      forall j: nat ensures !Sets(lines[1..], j, k) {
        assert !Sets(lines, j + 1, k);
      }
      if lines[0] == [] {
        UnsetKeyStays(lines[1..], m, k);
      } else {
        assert !Sets(lines, 0, k);
        var (k0, v0) := DecodeLine(lines[0]).value;
        UnsetKeyStays(lines[1..], m[k0 := v0], k);
      }
    }
  }

  // ----- round trip -----

  predicate GoodKey(k: Text) {
    k != [] && QUOTE !in k && EQUALS !in k && LF !in k && Trim(k) == k
  }

  /** What the decoder keeps of a printed value: a bare one loses its edge
      whitespace, and has no value at all when nothing is left. */
  function Kept(v: Text): Option<Text> {
    if !Bare(v) then Some(v)
    else if Trim(v) == [] then None
    else Some(Trim(v))
  }

  /** The dictionary of a list of pairs; a later pair overrides an earlier one. */
  function Collect(ps: seq<Pair>, m: Dict): Dict {
    if ps == [] then m else Collect(ps[1..], m[Fold(ps[0].key) := Kept(ps[0].value)])
  }

  lemma BareHasNoMarks(v: Text)
    requires Bare(v)
    ensures QUOTE !in v && EQUALS !in v && LF !in v
  {
  }

  lemma ValueScan(delim: byte, v: Text)
    requires delim == LF || delim == EQUALS
    ensures Solid(delim, PrintValue(v), false) && !EndsInside(PrintValue(v), false)
  {
    if Bare(v) {
      BareHasNoMarks(v);
      PlainScan(delim, v);
    } else {
      QuotedScan(delim, v);
    }
  }

  lemma LineScan(p: Pair)
    requires GoodKey(p.key)
    ensures Solid(LF, Line(p), false) && !EndsInside(Line(p), false)
  {
    PlainScan(LF, p.key);
    ValueScan(LF, p.value);
    ScanConcat(LF, p.key, [EQUALS], false);
    assert [EQUALS][1..] == [];
    ScanConcat(LF, p.key + [EQUALS], PrintValue(p.value), false);
  }

  /** One printed pair reads back as its key and what is kept of its value. */
  lemma LineReadsBack(p: Pair)
    requires GoodKey(p.key)
    ensures DecodeLine(Line(p)) == Some((Fold(p.key), Kept(p.value)))
  {
    PlainScan(EQUALS, p.key);
    CutConcat(EQUALS, p.key, PrintValue(p.value), false);
    var v := p.value;
    if Bare(v) {
      BareHasNoMarks(v);
      UnquoteBare(Trim(v));
    } else {
      assert TrimLeft(Quoted(v)) == Quoted(v);
      UnquoteQuoted(v);
    }
  }

  /** A value of letters, digits and spaces is printed as it is; any other between
      quotes, so that unquoting gives it back. */
  lemma ValuePrinted(v: Text)
    ensures if forall i :: 0 <= i < |v| ==> v[i] == 0x20 || 0x30 <= v[i] <= 0x39 || 0x41 <= v[i] <= 0x5A || 0x61 <= v[i] <= 0x7A
            then PrintValue(v) == v
            else Surrounded(PrintValue(v)) && Unquote(PrintValue(v)) == Some(v)
  {
    UnquoteQuoted(v);
  }

  predicate AllBlank(s: Text) {
    forall i :: 0 <= i < |s| ==> Blank(s[i])
  }

  lemma TrimPadded(a: Text, s: Text, b: Text)
    requires AllBlank(a) && AllBlank(b) && s != [] && !Blank(s[0]) && !Blank(s[|s| - 1])
    ensures Trim(a + s + b) == s
  {
    var t := a + s + b;
    assert forall k :: |a| <= k < |a| + |s| ==> t[k] == s[k - |a|];
    TrimMeaning(t, |a|, |a| + |s|);
    assert t[|a|..|a| + |s|] == s;
  }

  /** White space around the key of a line, and around a quoted value, is dropped. */
  lemma PaddingIsDropped(k: Text, v: Text, a: Text, b: Text, c: Text, d: Text)
    requires GoodKey(k) && AllBlank(a) && AllBlank(b) && AllBlank(c) && AllBlank(d)
    ensures DecodeLine(a + k + b + [EQUALS] + (c + Quoted(v) + d)) == Some((Fold(k), Some(v)))
  {
    assert EQUALS !in a && QUOTE !in a && EQUALS !in b && QUOTE !in b;
    PlainScan(EQUALS, a + k + b);
    CutConcat(EQUALS, a + k + b, c + Quoted(v) + d, false);
    GoodEdges(k);
    TrimPadded(a, k, b);
    TrimPadded(c, Quoted(v), d);
    UnquoteQuoted(v);
  }

  lemma GoodEdges(k: Text)
    requires GoodKey(k)
    ensures !Blank(k[0]) && !Blank(k[|k| - 1])
  {
    var l := LeftOf(k);
    var r := RightOf(TrimLeft(k));
    assert |Trim(k)| == r && l + r <= |k|;
  }

  lemma {:induction false} LinesRoundTrip(ps: seq<Pair>, m: Dict)
    requires ps != [] && forall i :: 0 <= i < |ps| ==> GoodKey(ps[i].key)
    ensures Encode(ps) != []
    ensures DecodeLines(Explode(LF, Encode(ps), false), m) == Some(Collect(ps, m))
    decreases |ps|
  {
    var p := ps[0];
    LineScan(p);
    LineReadsBack(p);
    assert Line(p) != [];
    var m1 := m[Fold(p.key) := Kept(p.value)];
    hide DecodeLine;
    hide Line;
    if |ps| == 1 {
      ExplodeSolid(LF, Line(p), false);
      assert [Line(p)][1..] == [];
      assert DecodeLines([], m1) == Some(m1);
      assert Collect(ps[1..], m1) == m1;
    } else {
      LinesRoundTrip(ps[1..], m1);
      ExplodeConcat(LF, Line(p), Encode(ps[1..]), false);
      var rest := Explode(LF, Encode(ps[1..]), false);
      assert ([Line(p)] + rest)[1..] == rest;
    }
  }

  /** Does pair `i` have the last word on its key? */
  predicate LastWord(ps: seq<Pair>, i: nat) {
    i < |ps| && forall j :: i < j < |ps| ==> Fold(ps[j].key) != Fold(ps[i].key)
  }

  /** The keys of the dictionary are those of the pairs. */
  lemma {:induction false} CollectKeys(ps: seq<Pair>, m: Dict, k: Text)
    ensures k in Collect(ps, m) <==> k in m || exists i :: 0 <= i < |ps| && Fold(ps[i].key) == k
    ensures k in m && (forall i :: 0 <= i < |ps| ==> Fold(ps[i].key) != k) ==> Collect(ps, m)[k] == m[k]
    decreases |ps|
  {
    hide Fold, Kept;
    if ps != [] {
      var t := ps[1..];
      CollectKeys(t, m[Fold(ps[0].key) := Kept(ps[0].value)], k);
      assert forall i :: 0 <= i < |t| ==> t[i] == ps[i + 1];
      assert forall i :: 1 <= i < |ps| ==> ps[i] == t[i - 1];
    }
  }

  /** The value of a key is the one of the last pair that has it. */
  lemma {:induction false} CollectLast(ps: seq<Pair>, m: Dict, i: nat)
    requires LastWord(ps, i)
    ensures Fold(ps[i].key) in Collect(ps, m) && Collect(ps, m)[Fold(ps[i].key)] == Kept(ps[i].value)
    decreases |ps|
  {
    hide Fold, Kept;
    var t, m1 := ps[1..], m[Fold(ps[0].key) := Kept(ps[0].value)];
    assert forall j :: 0 <= j < |t| ==> t[j] == ps[j + 1];
    if i == 0 {
      CollectKeys(t, m1, Fold(ps[0].key));
    } else {
      CollectLast(t, m1, i - 1);
    }
  }

  /** Dictionary `d` has exactly the folded keys of the pairs, each with the value of
      its last pair: that value itself if it had to be quoted, else without its
      edge whitespace, and no value if nothing is left. */
  predicate Reflects(d: Dict, ps: seq<Pair>) {
    && (forall k :: k in d ==> exists i :: 0 <= i < |ps| && Fold(ps[i].key) == k)
    && (forall i :: 0 <= i < |ps| && LastWord(ps, i) ==> Fold(ps[i].key) in d && d[Fold(ps[i].key)] == Kept(ps[i].value))
  }

  lemma CollectReflects(ps: seq<Pair>)
    ensures Reflects(Collect(ps, map[]), ps)
  {
    hide Fold, LastWord, Collect, Kept;
    forall k | k in Collect(ps, map[]) ensures exists i :: 0 <= i < |ps| && Fold(ps[i].key) == k {
      CollectKeys(ps, map[], k);
    }
    forall i | 0 <= i < |ps| && LastWord(ps, i)
      ensures Fold(ps[i].key) in Collect(ps, map[]) && Collect(ps, map[])[Fold(ps[i].key)] == Kept(ps[i].value)
    {
      CollectLast(ps, map[], i);
    }
  }

  /** Decoding printed pairs with plain keys never fails, and reflects the pairs. */
  lemma EncodeRoundTrip(ps: seq<Pair>)
    requires ps != [] && forall i :: 0 <= i < |ps| ==> GoodKey(ps[i].key)
    ensures Decode(Encode(ps)) == Some(Collect(ps, map[]))
    ensures Reflects(Decode(Encode(ps)).value, ps)
  {
    LinesRoundTrip(ps, map[]);
    CollectReflects(ps);
    hide Decode, Encode, Collect, Reflects;
  }

  predicate DistinctKeys(ps: seq<Pair>) {
    forall i, j :: 0 <= i < j < |ps| ==> Fold(ps[i].key) != Fold(ps[j].key)
  }

  /** Does decoding give back the value of every pair? */
  predicate ReadsBack(ps: seq<Pair>) {
    var d := Decode(Encode(ps));
    d.Some? && forall i :: 0 <= i < |ps| ==>
                 Fold(ps[i].key) in d.value && d.value[Fold(ps[i].key)] == Some(ps[i].value)
  }

  /** The round trip, exactly: pairs with plain and different keys all read back if
      and only if each value either had to be quoted, or is not empty and has no
      whitespace at its edges. */
  lemma RoundTripExactly(ps: seq<Pair>)
    requires ps != [] && DistinctKeys(ps) && forall i :: 0 <= i < |ps| ==> GoodKey(ps[i].key)
    ensures ReadsBack(ps) <==>
            forall i :: 0 <= i < |ps| ==> !Bare(ps[i].value) || (ps[i].value != [] && Trim(ps[i].value) == ps[i].value)
  {
    EncodeRoundTrip(ps);
    hide Decode, Encode, Fold, GoodKey;
    forall i | 0 <= i < |ps| ensures LastWord(ps, i) {
    }
    forall i | 0 <= i < |ps|
      ensures Kept(ps[i].value) == Some(ps[i].value)
              <==> !Bare(ps[i].value) || (ps[i].value != [] && Trim(ps[i].value) == ps[i].value)
    {
      KeptExactly(ps[i].value);
    }
    hide Kept, Bare, Trim;
  }

  /** A value of one space comes back as no value at all. */
  lemma EdgeSpaceIsLost()
    ensures !ReadsBack([Pair([0x6B], [SPACE])])
    ensures Decode(Encode([Pair([0x6B], [SPACE])])) == Some(map[[0x6B] := None])
  {
    var ps := [Pair([0x6B], [SPACE])];
    assert TrimLeft([SPACE]) == [];
    assert TrimLeft([0x6B]) == [0x6B] && TrimRight([0x6B]) == [0x6B];
    assert Fold([0x6B]) == [0x6B];
    LinesRoundTrip(ps, map[]);
    assert Collect(ps[1..], map[[0x6B] := None]) == map[[0x6B] := None];
  }

  /** A value comes back exactly when it was quoted, or is nonempty without edge
      whitespace. */
  lemma KeptExactly(v: Text)
    ensures Kept(v) == Some(v) <==> !Bare(v) || (v != [] && Trim(v) == v)
  {
  }

  // ----- request payloads -----

  const ACTION: Text := [0x61, 0x63, 0x74, 0x69, 0x6F, 0x6E]
  const PING_WORD: Text := [0x70, 0x69, 0x6E, 0x67]
  const PING_MESSAGE: Text := [0x50, 0x49, 0x4E, 0x47]

  /** Sets a parameter, replacing one whose key differs at most in case. */
  function SetPair(ps: seq<Pair>, k: Text, v: Text): (r: seq<Pair>)
    ensures r != []
  {
    if ps == [] then [Pair(k, v)]
    else if Fold(ps[0].key) == Fold(k) then [Pair(k, v)] + ps[1..]
    else [ps[0]] + SetPair(ps[1..], k, v)
  }

  /** Setting parameters one by one never gives one key two values. */
  lemma {:induction false} SetPairDistinct(ps: seq<Pair>, k: Text, v: Text)
    requires DistinctKeys(ps)
    ensures DistinctKeys(SetPair(ps, k, v))
    ensures forall i :: 0 <= i < |SetPair(ps, k, v)| ==>
              Fold(SetPair(ps, k, v)[i].key) == Fold(k) || exists j :: 0 <= j < |ps| && SetPair(ps, k, v)[i] == ps[j]
    decreases |ps|
  {
    hide Fold;
    if ps != [] && Fold(ps[0].key) != Fold(k) {
      var t := ps[1..];
      assert forall i :: 0 <= i < |t| ==> t[i] == ps[i + 1];
      assert DistinctKeys(t);
      SetPairDistinct(t, k, v);
      var r := SetPair(t, k, v);
      forall i | 0 <= i < |r| ensures Fold(r[i].key) != Fold(ps[0].key) {
        if Fold(r[i].key) != Fold(k) {
          var j :| 0 <= j < |t| && r[i] == t[j];
          assert t[j] == ps[j + 1];
        }
      }
      assert SetPair(ps, k, v) == [ps[0]] + r;
    }
  }

  /** The value that goes with a folded key. */
  function ValueOf(ps: seq<Pair>, fk: Text): Option<Text> {
    if ps == [] then None else if Fold(ps[0].key) == fk then Some(ps[0].value) else ValueOf(ps[1..], fk)
  }

  /** The pairs with other folded keys, in order. */
  function Others(ps: seq<Pair>, fk: Text): seq<Pair> {
    if ps == [] then [] else (if Fold(ps[0].key) == fk then [] else [ps[0]]) + Others(ps[1..], fk)
  }

  lemma {:induction false} NoOthersDropped(ps: seq<Pair>, fk: Text)
    requires forall i :: 0 <= i < |ps| ==> Fold(ps[i].key) != fk
    ensures Others(ps, fk) == ps
  {
    hide Fold;
    if ps != [] {
      NoOthersDropped(ps[1..], fk);
    }
  }

  predicate HasKey(ps: seq<Pair>, fk: Text) {
    exists i :: 0 <= i < |ps| && Fold(ps[i].key) == fk
  }

  lemma HasKeyLater(p: Pair, ps: seq<Pair>, fk: Text)
    requires HasKey(ps, fk)
    ensures HasKey([p] + ps, fk)
  {
    hide Fold;
    var i :| 0 <= i < |ps| && Fold(ps[i].key) == fk;
    assert ([p] + ps)[i + 1] == ps[i];
  }

  /** Setting a parameter: afterwards there is one with its key, in whatever case, and
      it has the new value; all others stay, in order, and nothing else is added. */
  lemma {:induction false} SetPairMeans(ps: seq<Pair>, k: Text, v: Text)
    requires DistinctKeys(ps)
    ensures var r := SetPair(ps, k, v);
            && HasKey(r, Fold(k))
            && (forall i :: 0 <= i < |r| && Fold(r[i].key) == Fold(k) ==> r[i].value == v)
            && Others(r, Fold(k)) == Others(ps, Fold(k))
    decreases |ps|
  {
    hide Fold;
    var r := SetPair(ps, k, v);
    if ps == [] {
      assert r[0] == Pair(k, v);
      assert [Pair(k, v)][1..] == [];
    } else {
      var t := ps[1..];
      assert forall i :: 0 <= i < |t| ==> t[i] == ps[i + 1];
      if Fold(ps[0].key) == Fold(k) {
        assert r[0] == Pair(k, v) && r[1..] == t;
      } else {
        SetPairMeans(t, k, v);
        var u := SetPair(t, k, v);
        assert r == [ps[0]] + u && r[1..] == u;
        assert forall i :: 1 <= i < |r| ==> r[i] == u[i - 1];
        HasKeyLater(ps[0], u, Fold(k));
      }
    }
  }

  /** The same as a lookup, for all keys. */
  lemma {:induction false} SetPairValue(ps: seq<Pair>, k: Text, v: Text, fk: Text)
    ensures ValueOf(SetPair(ps, k, v), fk) == if fk == Fold(k) then Some(v) else ValueOf(ps, fk)
    decreases |ps|
  {
    hide Fold;
    if ps == [] {
      assert [Pair(k, v)][1..] == [];
    } else if Fold(ps[0].key) == Fold(k) {
      assert SetPair(ps, k, v)[1..] == ps[1..];
    } else {
      SetPairValue(ps[1..], k, v, fk);
      assert SetPair(ps, k, v)[1..] == SetPair(ps[1..], k, v);
    }
  }

  predicate IsPing(ps: seq<Pair>) {
    |ps| == 1 && Fold(ps[0].key) == ACTION && Fold(ps[0].value) == PING_WORD
  }

  /** The data of a request frame; a lone `action=ping` has its own format. */
  function Payload(ps: seq<Pair>): Text {
    if IsPing(ps) then PING_MESSAGE else Encode(ps)
  }

  const PING_REQUEST: seq<Pair> := [Pair(ACTION, PING_WORD)]

  /** A request with at least one parameter always has data. */
  lemma PayloadNotEmpty(ps: seq<Pair>)
    requires ps != []
    ensures Payload(ps) != []
  {
    assert Line(ps[0]) != [];
  }

  /** What is sent for a request with plain and different keys: `PING` for the lone
      parameter action=ping, in whatever case; otherwise text that decodes to its
      parameters. */
  lemma PayloadMeans(ps: seq<Pair>)
    requires ps != [] && forall i :: 0 <= i < |ps| ==> GoodKey(ps[i].key)
    ensures if |ps| == 1 && Fold(ps[0].key) == [0x61, 0x63, 0x74, 0x69, 0x6F, 0x6E] && Fold(ps[0].value) == [0x70, 0x69, 0x6E, 0x67]
            then Payload(ps) == [0x50, 0x49, 0x4E, 0x47]
            else Decode(Payload(ps)).Some? && Reflects(Decode(Payload(ps)).value, ps)
    ensures Payload(PING_REQUEST) == [0x50, 0x49, 0x4E, 0x47]
  {
    EncodeRoundTrip(ps);
    hide Decode, Encode, Reflects, GoodKey, Fold;
    PingIsPing();
  }

  lemma PingIsPing()
    ensures IsPing(PING_REQUEST)
  {
    assert Fold(ACTION) == ACTION && Fold(PING_WORD) == PING_WORD;
  }

  predicate NoEtx(ps: seq<Pair>) {
    forall i :: 0 <= i < |ps| ==> ETX !in ps[i].key && ETX !in ps[i].value
  }

  lemma {:induction false} DoubleNoEtx(s: Text)
    ensures ETX in Double(s) <==> ETX in s
  {
    if s != [] {
      DoubleNoEtx(s[1..]);
      assert s == [s[0]] + s[1..];
    }
  }

  /** The payload holds an ETX, and so breaks its frame, exactly when some key or
      value of the request does. */
  lemma {:induction false} EncodeNoEtx(ps: seq<Pair>)
    ensures ETX !in Encode(ps) <==> NoEtx(ps)
    decreases |ps|
  {
    if ps != [] {
      DoubleNoEtx(ps[0].value);
      assert ETX in Line(ps[0]) <==> ETX in ps[0].key || ETX in ps[0].value;
      EncodeNoEtx(ps[1..]);
      assert ps == [ps[0]] + ps[1..];
      hide Line;
      assert NoEtx(ps) <==> ETX !in ps[0].key && ETX !in ps[0].value && NoEtx(ps[1..]);
      if |ps| == 1 {
        assert ps[1..] == [];
      }
    }
  }

  /** The same for what is sent, the ping's own format included. */
  lemma PayloadNoEtx(ps: seq<Pair>)
    ensures ETX !in Payload(ps) <==> NoEtx(ps)
  {
    EncodeNoEtx(ps);
    hide Encode;
    if IsPing(ps) {
      FoldKeepsEtx(ps[0].key);
      FoldKeepsEtx(ps[0].value);
    }
  }

  lemma FoldKeepsEtx(s: Text)
    ensures ETX in s <==> ETX in Fold(s)
  {
    if ETX in s {
      var i :| 0 <= i < |s| && s[i] == ETX;
      assert Fold(s)[i] == ETX;
    }
    if ETX in Fold(s) {
      var i :| 0 <= i < |s| && Fold(s)[i] == ETX;
      assert s[i] == ETX;
    }
  }

  /** Setting a parameter without ETX brings none in. */
  lemma {:induction false} SetPairNoEtx(ps: seq<Pair>, k: Text, v: Text)
    requires NoEtx(ps) && ETX !in k && ETX !in v
    ensures NoEtx(SetPair(ps, k, v))
    decreases |ps|
  {
    if ps != [] && Fold(ps[0].key) != Fold(k) {
      SetPairNoEtx(ps[1..], k, v);
    }
  }
}
