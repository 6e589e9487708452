/** Guessing the format of a reply from its first bytes. */
module ResponseKind {
  import opened Bytes

  datatype Kind = KV | CSV | BULK

  const SCAN_LIMIT := 32

  function Scanned(msg: seq<byte>): nat {
    if |msg| > SCAN_LIMIT then SCAN_LIMIT else |msg|
  }

  /** Bytes the scan passes over. */
  predicate Passive(b: byte) {
    b == QUOTE || b == UNDERSCORE || b == DASH || IsAlnumSp(b)
  }

  function Verdict(b: byte): Kind {
    if b == EQUALS then KV
    else if b == COMMA || b == CR || b == LF then CSV
    else BULK
  }

  /** The format: decided by the first byte after the first that is not passive,
      within the scan limit. */
  function KindFrom(msg: seq<byte>, i: nat): Kind
    requires i <= Scanned(msg)
    decreases Scanned(msg) - i
  {
    if i == Scanned(msg) then BULK
    else if Passive(msg[i]) then KindFrom(msg, i + 1)
    else Verdict(msg[i])
  }

  function KindOf(msg: seq<byte>): Kind {
    if msg == [] || msg[0] == EQUALS || msg[0] == COMMA then BULK else KindFrom(msg, 1)
  }

  /** A letter, a digit, a space, a quote, a hyphen or an underscore. */
  predicate Undecided(b: byte) {
    b in {0x20, 0x22, 0x2D, 0x5F} || 0x30 <= b <= 0x39 || 0x41 <= b <= 0x5A || 0x61 <= b <= 0x7A
  }

  /** Index `i`, not the first, is where the first 32 bytes decide. */
  predicate StopsAt(msg: seq<byte>, i: int) {
    && 1 <= i < |msg| && i < 32
    && !Undecided(msg[i])
    && (forall j :: 1 <= j < i ==> Undecided(msg[j]))
  }

  lemma {:induction false} KindFromStops(msg: seq<byte>, i: nat)
    requires 1 <= i <= Scanned(msg)
    requires forall j :: 1 <= j < i ==> Undecided(msg[j])
    ensures KindFrom(msg, i) == KV <==> exists k :: StopsAt(msg, k) && msg[k] == EQUALS
    ensures KindFrom(msg, i) == CSV <==> exists k :: StopsAt(msg, k) && msg[k] in {COMMA, CR, LF}
    decreases Scanned(msg) - i
  {
    if i < Scanned(msg) {
      if Passive(msg[i]) {
        KindFromStops(msg, i + 1);
      } else {
        assert StopsAt(msg, i);
        assert forall k :: StopsAt(msg, k) ==> k == i;
      }
    } else {
      assert forall k :: !StopsAt(msg, k);
    }
  }

  /** A reply is key/value exactly when it starts with neither `=` nor `,` and
      the first decisive byte is a `=`; CSV when that byte is a comma or a line
      end; everything else, including the empty reply, is bulk data. */
  lemma KindMeaning(msg: seq<byte>)
    ensures KindOf(msg) == KV <==>
            msg != [] && msg[0] !in {EQUALS, COMMA} && exists k :: StopsAt(msg, k) && msg[k] == EQUALS
    ensures KindOf(msg) == CSV <==>
            msg != [] && msg[0] !in {EQUALS, COMMA} && exists k :: StopsAt(msg, k) && msg[k] in {COMMA, CR, LF}
  {
    if msg != [] {
      KindFromStops(msg, 1);
    }
  }

  /** The scan itself. */
  method DetermineResponseType(msg: seq<byte>) returns (k: Kind)
    ensures k == KindOf(msg)
  {
    var msgLen := Scanned(msg);
    if msgLen == 0 || msg[0] == EQUALS || msg[0] == COMMA {
      return BULK;
    }
    var i := 1;
    while i < msgLen
      invariant 1 <= i <= msgLen
      invariant KindFrom(msg, i) == KindOf(msg)
    {
      if msg[i] == EQUALS {
        return KV;
      } else if msg[i] == COMMA || msg[i] == CR || msg[i] == LF {
        return CSV;
      } else if msg[i] != QUOTE && msg[i] != UNDERSCORE && msg[i] != DASH && !IsAlnumSp(msg[i]) {
        return BULK;
      }
      i := i + 1;
    }
    k := BULK;
  }
}
