/** What the parser makes of a buffer, said byte by byte. */
module Verdicts {
  import opened Bytes
  import Decimal
  import Framing

  /** The first `x` of the buffer stands at `e`. */
  predicate FirstAt(buf: seq<byte>, x: byte, e: nat) {
    e < |buf| && buf[e] == x && forall j :: 0 <= j < e ==> buf[j] != x
  }

  /** From index 1 on: the digits of a 64-bit number, up to an FS at index `f`. */
  predicate IdUpTo(buf: seq<byte>, f: nat) {
    && 2 <= f < |buf| && buf[f] == FS
    && (forall j :: 1 <= j < f ==> IsDigit(buf[j]))
    && Decimal.Value(buf[1..f]) < 0x1_0000_0000_0000_0000
  }

  /** More bytes are needed to tell. */
  predicate Waits(buf: seq<byte>) {
    |buf| < 5 || (buf[0] == STX && ETX !in buf)
  }

  /** A message in front: STX, id, FS at `f`, data, ETX at `e`. */
  predicate Fits(buf: seq<byte>, f: nat, e: nat) {
    |buf| >= 5 && buf[0] == STX && FirstAt(buf, ETX, e) && 4 <= e && f < e && IdUpTo(buf, f)
  }

  /** No message in front, and none to come: no STX, an ETX too early, or no id. */
  predicate Garbled(buf: seq<byte>) {
    && |buf| >= 5
    && (buf[0] != STX
        || exists e :: 0 <= e < |buf| && FirstAt(buf, ETX, e) && (e < 4 || forall f :: 0 <= f < e ==> !IdUpTo(buf, f)))
  }

  lemma FirstIndexAt(buf: seq<byte>, x: byte)
    ensures var e := FirstIndex(buf, x); (x in buf <==> e < |buf|) && (x in buf ==> FirstAt(buf, x, e))
    ensures forall e :: FirstAt(buf, x, e) ==> e == FirstIndex(buf, x)
  {
    var e := FirstIndex(buf, x);
    if x in buf {
      var j :| 0 <= j < |buf| && buf[j] == x;
      assert e <= j;
    }
  }

  /** The parser reads the digits in front, `k` of them, and then needs an FS. */
  lemma ParseAt(body: seq<byte>, k: nat)
    requires k == Decimal.DigitRun(body)
    ensures Framing.ParseBody(body)
            == if k == 0 || k == |body| || body[k] != FS || Decimal.Value(body[..k]) >= 0x1_0000_0000_0000_0000 then None
               else Some(Framing.Message(Decimal.Value(body[..k]), body[k + 1..]))
  {
    hide Decimal.Value, Decimal.DigitRun;
    var tail := body[k..];
    if k < |body| {
      assert tail[0] == body[k] && tail[1..] == body[k + 1..];
    }
  }

  /** An id up to `f` is a run of digits that ends there. */
  lemma IdIsRun(buf: seq<byte>, e: nat, f: nat)
    requires 1 <= f < e < |buf|
    ensures var body := buf[1..e]; var k := Decimal.DigitRun(body);
            IdUpTo(buf, f) <==> f == k + 1 && k != 0 && body[k] == FS && Decimal.Value(body[..k]) < 0x1_0000_0000_0000_0000
  {
    hide Decimal.Value;
    var body := buf[1..e];
    var k := Decimal.DigitRun(body);
    assert forall j :: 0 <= j < |body| ==> body[j] == buf[j + 1];
    assert body[..f - 1] == buf[1..f];
    if IdUpTo(buf, f) {
      assert body[f - 1] == FS;
    }
  }

  /** The body between STX and the first ETX, read by the parser and read here. */
  lemma BodyIs(buf: seq<byte>, e: nat)
    requires 1 <= e < |buf|
    ensures forall f :: 0 <= f < e && IdUpTo(buf, f) ==>
              Framing.ParseBody(buf[1..e]) == Some(Framing.Message(Decimal.Value(buf[1..f]), buf[f + 1..e]))
    ensures (forall f :: 0 <= f < e ==> !IdUpTo(buf, f)) ==> Framing.ParseBody(buf[1..e]) == None
  {
    hide Decimal.DigitRun, Decimal.Value, Framing.ParseBody;
    var body := buf[1..e];
    var k := Decimal.DigitRun(body);
    ParseAt(body, k);
    forall f | 0 <= f < e && IdUpTo(buf, f)
      ensures Framing.ParseBody(body) == Some(Framing.Message(Decimal.Value(buf[1..f]), buf[f + 1..e]))
    {
      IdIsRun(buf, e, f);
      assert body[..k] == buf[1..f];
      assert body[k + 1..] == buf[f + 1..e];
    }
    if Framing.ParseBody(body).Some? {
      IdIsRun(buf, e, k + 1);
    }
  }

  /** The verdict on every buffer: wait, give up, or a message, and which. */
  lemma FrontVerdict(buf: seq<byte>)
    ensures Framing.NextFrame(buf).NeedMore? <==> Waits(buf)
    ensures Framing.NextFrame(buf).Malformed? <==> Garbled(buf)
    ensures Framing.NextFrame(buf).Got? <==> exists f: nat, e: nat :: Fits(buf, f, e)
    ensures forall f: nat, e: nat :: Fits(buf, f, e) ==>
              Framing.NextFrame(buf) == Framing.Got(Framing.Message(Decimal.Value(buf[1..f]), buf[f + 1..e]), buf[e + 1..])
  {
    FirstIndexAt(buf, ETX);
    var e := FirstIndex(buf, ETX);
    if |buf| >= 5 && buf[0] == STX && e < |buf| {
      BodyIs(buf, e);
      if e >= 4 && Framing.ParseBody(buf[1..e]).Some? {
        var f :| 0 <= f < e && IdUpTo(buf, f);
        assert Fits(buf, f as nat, e);
      }
    }
    hide Framing.ParseBody;
  }

  /** Where a message can be told from what follows it, the place is unique. */
  lemma FitsOnce(buf: seq<byte>, f: nat, e: nat, g: nat, d: nat)
    requires Fits(buf, f, e) && Fits(buf, g, d)
    ensures f == g && e == d
  {
    assert buf[f] == FS && buf[g] == FS;
  }

  /** Taking messages off the front one after the other, the stream proves garbled. */
  ghost predicate Breaks(buf: seq<byte>)
    decreases |buf|
  {
    Garbled(buf) || exists f: nat, e: nat :: Fits(buf, f, e) && Breaks(buf[e + 1..])
  }

  /** Taking messages off the front one after the other, one with this id comes. */
  ghost predicate Brings(buf: seq<byte>, id: nat)
    decreases |buf|
  {
    exists f: nat, e: nat :: Fits(buf, f, e) && (Decimal.Value(buf[1..f]) == id || Brings(buf[e + 1..], id))
  }

  predicate HasId(ms: seq<Framing.Message>, id: nat) {
    exists k :: 0 <= k < |ms| && ms[k].id == id
  }

  lemma HasIdCons(m: Framing.Message, ms: seq<Framing.Message>, id: nat)
    ensures HasId([m] + ms, id) <==> m.id == id || HasId(ms, id)
  {
    var all := [m] + ms;
    assert all[0] == m;
    if HasId(ms, id) {
      var k :| 0 <= k < |ms| && ms[k].id == id;
      assert all[k + 1] == ms[k];
    }
  }

  /** The parser gives up on exactly the streams that break. */
  lemma {:induction false} StreamVerdict(buf: seq<byte>)
    ensures Framing.SplitAll(buf).bad <==> Breaks(buf)
    decreases |buf|
  {
    hide Framing.NextFrame, Waits, Garbled, Fits;
    FrontVerdict(buf);
    if f: nat, e: nat :| Fits(buf, f, e) {
      FitsBounds(buf, f, e);
      StreamVerdict(buf[e + 1..]);
      forall g: nat, d: nat | Fits(buf, g, d) ensures g == f && d == e { FitsOnce(buf, f, e, g, d); }
    }
  }

  lemma FitsBounds(buf: seq<byte>, f: nat, e: nat)
    requires Fits(buf, f, e)
    ensures 1 <= f < e < |buf|
  {
  }

  /** And it takes a message with this id off exactly the streams that bring one. */
  lemma {:induction false} StreamBrings(buf: seq<byte>, id: nat)
    ensures HasId(Framing.SplitAll(buf).msgs, id) <==> Brings(buf, id)
    decreases |buf|
  {
    hide Framing.NextFrame, Waits, Garbled, Fits, HasId;
    FrontVerdict(buf);
    if f: nat, e: nat :| Fits(buf, f, e) {
      FitsBounds(buf, f, e);
      StreamBrings(buf[e + 1..], id);
      HasIdCons(Framing.NextFrame(buf).msg, Framing.SplitAll(buf[e + 1..]).msgs, id);
      forall g: nat, d: nat | Fits(buf, g, d) ensures g == f && d == e { FitsOnce(buf, f, e, g, d); }
    } else {
      NoneHasId(id);
    }
  }

  lemma NoneHasId(id: nat)
    ensures !HasId([], id)
  {
  }
}
