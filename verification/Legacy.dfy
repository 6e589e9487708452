/** The older interface, which names transactions by id and reduces an outcome to a
    number, as a view of the connection. */
module Legacy {
  import opened Bytes
  import opened Pool
  import opened Engine
  import opened Core
  import opened Invariant
  import opened Runs
  import opened Connection
  import opened Handler
  import Views
  import KeyValue
  import Framing
  import ResponseKind

  const M_UNUSED := 0
  const M_NEW := 100
  const M_PENDING := 1
  const M_DONE := 2
  const M_ERROR := -1
  const M_FAIL := 0
  const M_SUCCESS := 1

  function Holder(p: Pool, id: nat): Option<Handle> {
    if id in p.idMap && p.idMap[id] in p.txns then Some(p.idMap[id]) else None
  }

  function CheckStatus(p: Pool, id: nat): int {
    match Holder(p, id)
    case None => M_UNUSED
    case Some(h) =>
      match p.txns[h].status
      case New => M_NEW
      case Ready => M_PENDING
      case Pending => M_PENDING
      case Done => M_DONE
  }

  /** Anything but key/value data; also no data yet. */
  predicate IsCommaDelimited(p: Pool, id: nat) {
    match Holder(p, id)
    case None => false
    case Some(h) => !p.txns[h].response.KeyValues?
  }

  function ResponseParam(p: Pool, id: nat, key: seq<byte>): Option<seq<byte>> {
    match Holder(p, id)
    case None => None
    case Some(h) =>
      var t := p.txns[h];
      if t.status == Status.Done && t.response.KeyValues? && t.response.params.Some? && KeyValue.Fold(key) in t.response.params.value
      then t.response.params.value[KeyValue.Fold(key)]
      else None
  }

  const SUCCESS: seq<byte> := [0x73, 0x75, 0x63, 0x63, 0x65, 0x73, 0x73]
  const AUTH: seq<byte> := [0x61, 0x75, 0x74, 0x68]

  /** Compared without regard to case. */
  predicate Approves(code: Option<seq<byte>>) {
    code.Some? && KeyValue.Fold(code.value) in {SUCCESS, AUTH}
  }

  function ReturnStatus(p: Pool, id: nat): int {
    if CheckStatus(p, id) != M_DONE then M_ERROR
    else if IsCommaDelimited(p, id) then M_SUCCESS
    else if Approves(ResponseParam(p, id, CODE)) then M_SUCCESS
    else M_FAIL
  }

  // ----- what the numbers mean -----

  /** Reply data that counts as success: no key/value data at all, or a `code` that
      approves. */
  predicate Approved(data: seq<byte>) {
    ResponseKind.KindOf(data) != ResponseKind.KV
    || var d := KeyValue.Decode(data);
       d.Some? && CODE in d.value && Approves(d.value[CODE])
  }

  lemma CodeIsFolded()
    ensures KeyValue.Fold(CODE) == CODE && KeyValue.Fold(DENY) !in {SUCCESS, AUTH}
  {
    assert |KeyValue.Fold(DENY)| == 4 && KeyValue.Fold(DENY)[0] == 0x64;
  }

  lemma OutcomeOf(p: Pool, id: nat, h: Handle)
    requires Ledger(p) && id in p.idMap && p.idMap[id] == h
    ensures h in p.txns && p.txns[h].id == id && Holder(p, id) == Some(h)
    ensures ReturnStatus(p, id) == M_SUCCESS <==> p.txns[h].fate.Answered? && Approved(p.txns[h].fate.data)
    ensures ReturnStatus(p, id) == M_FAIL <==>
            p.txns[h].fate == Lost || (p.txns[h].fate.Answered? && !Approved(p.txns[h].fate.data))
    ensures ReturnStatus(p, id) == M_ERROR <==> p.txns[h].fate == Unresolved
  {
    hide Accounted, DeferredOk, KeyValue.Decode, ResponseKind.KindOf, Approves;
    assert TxnOk(p.txns[h]);
    CodeIsFolded();
    NotApproved();
  }

  lemma NotApproved()
    ensures !Approves(Some(DENY)) && !Approves(None)
  {
    CodeIsFolded();
  }

  /** A success is reported exactly for an id whose holder took a reply that
      approves, and that reply is on record as consumed from the wire for this
      transaction under this id; a transaction ended with its connection is
      always reported as failed. */
  lemma SuccessMeansReply(disablePing: bool, states: seq<State>, steps: seq<Step>, i: nat, id: nat)
    requires Execution(disablePing, states, steps) && i < |states|
    ensures var p, hist := states[i].pool, states[i].hist;
            ReturnStatus(p, id) == M_SUCCESS <==>
            exists h :: h in p.txns && p.txns[h].id == id && p.txns[h].fate.Answered? && Approved(p.txns[h].fate.data)
                        && Reply(h, Framing.Message(id, p.txns[h].fate.data)) in hist.replies && WasPrinted(hist.printed, h)
    ensures var p := states[i].pool;
            forall h :: h in p.txns && p.txns[h].fate == Lost ==> ReturnStatus(p, p.txns[h].id) == M_FAIL
  {
    hide Execution, Inv, Approved, ReturnStatus, WasPrinted, Ledger;
    InvAlways(disablePing, states, steps, i);
    var s := states[i];
    LedgerOf(s);
    IndexBoth(s.pool);
    if ReturnStatus(s.pool, id) == M_SUCCESS {
      SomeHolder(s.pool, id);
      var h := s.pool.idMap[id];
      OutcomeOf(s.pool, id, h);
      OnRecord(s, h);
    }
    forall h | h in s.pool.txns
      ensures s.pool.txns[h].id == id && s.pool.txns[h].fate.Answered? && Approved(s.pool.txns[h].fate.data)
              ==> ReturnStatus(s.pool, id) == M_SUCCESS
      ensures s.pool.txns[h].fate == Lost ==> ReturnStatus(s.pool, s.pool.txns[h].id) == M_FAIL
    {
      OutcomeOf(s.pool, s.pool.txns[h].id, h);
    }
  }

  /** In every state of every run: the number reported for an id is 0 when no transaction
      has it, else 100, 1, 1 or 2 as its holder is new, ready, pending or done. Success
      is reported for what is not key/value data, or says `success` or `auth`. */
  lemma StatusMeans(disablePing: bool, states: seq<State>, steps: seq<Step>, i: nat, id: nat)
    requires Execution(disablePing, states, steps) && i < |states|
    ensures var p := states[i].pool;
            && ((forall h :: h in p.txns ==> p.txns[h].id != id) ==> CheckStatus(p, id) == 0)
            && (forall h :: h in p.txns && p.txns[h].id == id ==>
                  CheckStatus(p, id) == match p.txns[h].status
                                        case New => 100
                                        case Ready => 1
                                        case Pending => 1
                                        case Done => 2)
    ensures forall c :: Approves(Some(c)) <==>
              KeyValue.Fold(c) in {[0x73, 0x75, 0x63, 0x63, 0x65, 0x73, 0x73], [0x61, 0x75, 0x74, 0x68]}
  {
    hide Execution, Inv, Ledger, KeyValue.Fold;
    InvAlways(disablePing, states, steps, i);
    LedgerOf(states[i]);
    IndexBoth(states[i].pool);
  }

  lemma LedgerOf(s: State)
    requires Inv(s)
    ensures Ledger(s.pool)
  {
    hide QueuesOk, Ledger, PrintsOk, InSendOrder, WireOk, PastOk, InputOk, TraceOk, BatchOk, RepliesOk, DeliveredOk,
         Alive;
  }

  lemma IndexBoth(p: Pool)
    requires Ledger(p)
    ensures forall h :: h in p.txns ==> p.txns[h].id in p.idMap && p.idMap[p.txns[h].id] == h
    ensures forall id :: id in p.idMap ==> p.idMap[id] in p.txns && p.txns[p.idMap[id]].id == id
  {
    hide Accounted, DeferredOk, TxnsOk;
  }

  lemma SomeHolder(p: Pool, id: nat)
    requires ReturnStatus(p, id) == M_SUCCESS
    ensures id in p.idMap
  {
  }

  lemma OnRecord(s: State, h: Handle)
    requires Inv(s) && h in s.pool.txns && s.pool.txns[h].fate.Answered?
    ensures Reply(h, Framing.Message(s.pool.txns[h].id, s.pool.txns[h].fate.data)) in s.hist.replies
    ensures WasPrinted(s.hist.printed, h)
  {
    LedgerOf(s);
    hide QueuesOk, Indexed, Accounted, DeferredOk, InSendOrder, WireOk, PastOk, InputOk, TraceOk, BatchOk,
         DeliveredOk, Alive, WasPrinted, BuildResponse;
    assert TxnOk(s.pool.txns[h]);
  }

  /** An outcome, once reported, does not change for as long as the transaction
      exists: not by later replies, nor by the loss of the connection. */
  lemma OutcomeIsFinal(disablePing: bool, states: seq<State>, steps: seq<Step>, i: nat, j: nat, id: nat)
    requires Execution(disablePing, states, steps) && i <= j < |states|
    requires CheckStatus(states[i].pool, id) == M_DONE && Holder(states[i].pool, id).value in states[j].pool.txns
    ensures ReturnStatus(states[j].pool, id) == ReturnStatus(states[i].pool, id) != M_ERROR
  {
    hide Execution, Inv, Approved, ReturnStatus, Ledger;
    InvAlways(disablePing, states, steps, i);
    InvAlways(disablePing, states, steps, j);
    LedgerOf(states[i]);
    LedgerOf(states[j]);
    IndexBoth(states[i].pool);
    IndexBoth(states[j].pool);
    var h := Holder(states[i].pool, id).value;
    ForwardOnly(disablePing, states, steps, i, j, h);
    DoneIsResolved(states[i].pool, h);
    OutcomeOf(states[i].pool, id, h);
    OutcomeOf(states[j].pool, id, h);
  }

  lemma DoneIsResolved(p: Pool, h: Handle)
    requires Ledger(p) && h in p.txns && p.txns[h].status == Status.Done
    ensures p.txns[h].fate != Unresolved
  {
    hide Indexed, Accounted, DeferredOk, BuildResponse;
    assert TxnOk(p.txns[h]);
  }

  // ----- counting and listing -----

  function TransactionsSent(p: Pool): nat {
    |p.pending| + |p.done|
  }

  /** At rest: the live transactions that have been put on a wire. */
  lemma SentAreCounted(disablePing: bool, states: seq<State>, steps: seq<Step>, i: nat)
    requires Execution(disablePing, states, steps) && i < |states| && states[i].ctl.pc == Quiet
    ensures var s := states[i];
            TransactionsSent(s.pool) == |set h | h in s.pool.txns && WasPrinted(s.hist.printed, h)|
  {
    hide Execution, Inv, WasPrinted;
    InvAlways(disablePing, states, steps, i);
    var s := states[i];
    Views.QuietPool(s);
    SentQueues(s);
    Views.Cardinality(s.pool.pending + s.pool.done, set h | h in s.pool.txns && WasPrinted(s.hist.printed, h));
  }

  lemma SentQueues(s: State)
    requires Inv(s) && PoolOk(s.pool, {})
    ensures NoDup(s.pool.pending + s.pool.done)
    ensures forall h :: h in s.pool.pending + s.pool.done <==> h in s.pool.txns && WasPrinted(s.hist.printed, h)
  {
    hide InSendOrder, WireOk, PastOk, InputOk, TraceOk, BatchOk, RepliesOk, DeliveredOk, Alive, WasPrinted, Ledger,
         NoDup;
    NoDupConcat(s.pool.pending, s.pool.done);
  }

  /** The ids of the done transactions, in a new array; only their number when no
      array is asked for. The array holds an id exactly when its status is DONE. */
  method CompleteAuthorizations(c: Conn, wanted: bool) returns (cnt: nat, listings: array?<nat>)
    requires Valid(c)
    ensures cnt == |c.View().pool.done|
    ensures listings == null <==> !wanted
    ensures wanted ==> fresh(listings) && listings.Length == cnt
                       && forall i :: 0 <= i < cnt ==> CheckStatus(c.View().pool, listings[i]) == M_DONE
                                                       && Holder(c.View().pool, listings[i]) == Some(c.View().pool.done[i])
    ensures wanted ==> forall id :: CheckStatus(c.View().pool, id) == M_DONE ==> exists i :: 0 <= i < cnt && listings[i] == id
  {
    hide Inv, Reached, CheckStatus, Holder, Conn.Rep, Handles, AllKnown, Conn.PoolView, QueueOk, Ledger, Views.Chosen;
    ReachedInv(c.View());
    ghost var p := c.View().pool;
    if !wanted {
      cnt := Views.TransCount(c, Some(Status.Done));
      return cnt, null;
    }
    var list := Views.TransList(c, Some(Status.Done));
    cnt := |list|;
    listings := new nat[cnt];
    for i := 0 to cnt
      invariant listings.Length == cnt && forall k :: 0 <= k < i ==> listings[k] == list[k].id
    {
      listings[i] := list[i].id;
    }
    IdsOf(c, list);
    DoneOf(c.View());
    DoneListing(p, seq(cnt, i requires 0 <= i < cnt => list[i].id));
  }

  lemma IdsOf(c: Conn, list: seq<Trans>)
    requires AllKnown(c.live, list) && Handles(list) == c.View().pool.done
    ensures |list| == |c.View().pool.done|
    ensures var p := c.View().pool; forall i :: 0 <= i < |list| ==> p.done[i] in p.txns && p.txns[p.done[i]].id == list[i].id
  {
    forall i | 0 <= i < |list|
      ensures var p := c.View().pool; p.done[i] in p.txns && p.txns[p.done[i]].id == list[i].id
    {
      assert list[i] in list;
      HeldAt(c.live, list[i]);
    }
  }

  lemma DoneOf(s: State)
    requires Inv(s)
    ensures Ledger(s.pool) && QueueOk(s.pool.txns, s.pool.done, Status.Done, {})
  {
    hide QueueOk, Ledger, PrintsOk, InSendOrder, WireOk, PastOk, InputOk, TraceOk, BatchOk, RepliesOk, DeliveredOk,
         Alive;
  }

  /** The ids of the done queue are the ids whose status is DONE. */
  lemma DoneListing(p: Pool, ids: seq<nat>)
    requires Ledger(p) && QueueOk(p.txns, p.done, Status.Done, {}) && |ids| == |p.done|
    requires forall i :: 0 <= i < |ids| ==> p.done[i] in p.txns && ids[i] == p.txns[p.done[i]].id
    ensures forall i :: 0 <= i < |ids| ==> CheckStatus(p, ids[i]) == M_DONE && Holder(p, ids[i]) == Some(p.done[i])
    ensures forall id :: CheckStatus(p, id) == M_DONE ==> exists i :: 0 <= i < |ids| && ids[i] == id
  {
    IndexBoth(p);
    hide Ledger, NoDup;
    forall id | CheckStatus(p, id) == M_DONE ensures exists i :: 0 <= i < |ids| && ids[i] == id {
      var h := p.idMap[id];
      assert h in p.done;
      var i :| 0 <= i < |p.done| && p.done[i] == h;
      assert ids[i] == id;
    }
    forall i | 0 <= i < |ids| ensures CheckStatus(p, ids[i]) == M_DONE && Holder(p, ids[i]) == Some(p.done[i]) {
      assert p.done[i] in p.done;
    }
  }
}
