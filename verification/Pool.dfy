/** The transactions of a connection: the live objects, the four queues, the id
    index and the deferred-delete list, with the moves between them. A handle
    stands for a transaction pointer; handles are never used twice. */
module Pool {
  import opened Bytes
  import KeyValue
  import ResponseKind

  type Handle = nat

  const MAX_ID: nat := 0xFFFF_FFFF

  datatype Status = New | Ready | Pending | Done

  datatype Response =
    | NoResponse
    | KeyValues(params: Option<KeyValue.Dict>)
    | Csv(raw: seq<byte>)
    | Bulk(raw: seq<byte>)

  /** How a transaction ended: by a reply with this data, or with its connection. */
  datatype Fate = Unresolved | Answered(data: seq<byte>) | Lost

  /** `order` numbers the accepted sends; it and `fate` are history only. */
  datatype Txn = Txn(id: nat, ping: bool, status: Status, request: seq<KeyValue.Pair>,
                     timeout: nat, timer: bool, response: Response, fate: Fate, order: nat)

  /** `freed` lists the destroyed transactions in order; `dangling` holds those
      destroyed while their timeout timer was running. Both are history only. */
  datatype Pool = Pool(txns: map<Handle, Txn>, newq: seq<Handle>, ready: seq<Handle>,
                       pending: seq<Handle>, done: seq<Handle>, idMap: map<nat, Handle>,
                       delayRm: seq<Handle>, next: Handle, freed: seq<Handle>, dangling: set<Handle>)

  const EMPTY := Pool(map[], [], [], [], [], map[], [], 0, [], {})

  function Queue(p: Pool, st: Status): seq<Handle> {
    match st
    case New => p.newq
    case Ready => p.ready
    case Pending => p.pending
    case Done => p.done
  }

  function Blank(id: nat): Txn {
    Txn(id, false, New, [], 0, false, NoResponse, Unresolved, 0)
  }

  // ----- responses -----

  const CODE: seq<byte> := [0x63, 0x6F, 0x64, 0x65]
  const DENY: seq<byte> := [0x44, 0x45, 0x4E, 0x59]

  /** The stored form of reply data. */
  function BuildResponse(data: seq<byte>): Response {
    match ResponseKind.KindOf(data)
    case KV => KeyValues(KeyValue.Decode(data))
    case CSV => Csv(data)
    case BULK => Bulk(data)
  }

  /** The reply faked for a transaction whose connection was lost. */
  const REFUSAL := KeyValues(Some(map[CODE := Some(DENY)]))

  // ----- moves -----

  function Push(p: Pool, st: Status, h: Handle): Pool {
    match st
    case New => p.(newq := p.newq + [h])
    case Ready => p.(ready := p.ready + [h])
    case Pending => p.(pending := p.pending + [h])
    case Done => p.(done := p.done + [h])
  }

  function Pull(p: Pool, st: Status, h: Handle): Pool {
    match st
    case New => p.(newq := Without(p.newq, h))
    case Ready => p.(ready := Without(p.ready, h))
    case Pending => p.(pending := Without(p.pending, h))
    case Done => p.(done := Without(p.done, h))
  }

  /** A new transaction enters the queue of its status and the index. */
  function Add(p: Pool, t: Txn): Pool {
    Push(p, t.status, p.next).(txns := p.txns[p.next := t], idMap := p.idMap[t.id := p.next], next := p.next + 1)
  }

  /** Transaction `h` becomes `t` and goes to the end of the queue of its new status. */
  function Move(p: Pool, h: Handle, t: Txn): Pool
    requires h in p.txns
  {
    Push(Pull(p, p.txns[h].status, h), t.status, h).(txns := p.txns[h := t])
  }

  /** A change that leaves the status alone. */
  function Edit(p: Pool, h: Handle, t: Txn): Pool {
    p.(txns := p.txns[h := t])
  }

  function KillTimer(p: Pool, h: Handle): Pool
    requires h in p.txns
  {
    Edit(p, h, p.txns[h].(timer := false))
  }

  function Defer(p: Pool, h: Handle): Pool
    requires h in p.txns
  {
    KillTimer(p, h).(delayRm := p.delayRm + [h])
  }

  /** Those of `q` whose timeout timer runs. */
  function Timed(txns: map<Handle, Txn>, q: seq<Handle>): set<Handle> {
    set h | h in q && h in txns && txns[h].timer
  }

  /** Detach from queue and index, and free. */
  function Erase(p: Pool, h: Handle): Pool
    requires h in p.txns
  {
    var t := p.txns[h];
    Pull(p, t.status, h).(txns := p.txns - {h}, idMap := p.idMap - {t.id}, freed := p.freed + [h],
                          dangling := if t.timer then p.dangling + {h} else p.dangling)
  }

  /** Taking the head off the deferred list and erasing it, in one move. */
  function DrainHead(p: Pool): Pool
    requires p.delayRm != [] && p.delayRm[0] in p.txns
  {
    Erase(p.(delayRm := p.delayRm[1..]), p.delayRm[0])
  }

  // ----- the transactions a move makes -----

  function PingTxn(id: nat): Txn {
    Blank(id).(ping := true, status := Pending)
  }

  function Queued(t: Txn, order: nat): Txn {
    t.(status := Ready, order := order)
  }

  function Sent(t: Txn): Txn {
    t.(status := Pending, request := [], timer := t.timeout != 0)
  }

  function Settled(t: Txn, r: Response, f: Fate): Txn {
    t.(status := Done, response := r, fate := f)
  }

  function Finished(t: Txn, r: Response, f: Fate): Txn {
    Settled(t, r, f).(timer := false)
  }

  // ----- the invariant -----

  /** Queue `q` holds each live transaction of status `st`, once, and nothing
      else; only a ping listed in `away` may be missing from it. */
  predicate QueueOk(txns: map<Handle, Txn>, q: seq<Handle>, st: Status, away: set<Handle>) {
    && NoDup(q)
    && (forall h :: h in q ==> h in txns && txns[h].status == st)
    && (forall h :: h in txns && txns[h].status == st ==> h in q || (h in away && txns[h].ping))
  }

  /** Every live transaction is in the queue its status names; a ping taken off
      the pending queue is in `away` until it is destroyed. */
  predicate QueuesOk(p: Pool, away: set<Handle>) {
    && QueueOk(p.txns, p.newq, New, {})
    && QueueOk(p.txns, p.ready, Ready, {})
    && QueueOk(p.txns, p.pending, Pending, away)
    && QueueOk(p.txns, p.done, Done, {})
  }

  /** The index and the live transactions agree; ids are nonzero and unique. */
  predicate Indexed(txns: map<Handle, Txn>, idMap: map<nat, Handle>) {
    && (forall h :: h in txns ==> 1 <= txns[h].id <= MAX_ID && txns[h].id in idMap && idMap[txns[h].id] == h)
    && (forall id :: id in idMap ==> idMap[id] in txns && txns[idMap[id]].id == id)
  }

  /** Every handle given out is live or freed, not both, and freed once. */
  predicate Accounted(keys: set<Handle>, next: Handle, freed: seq<Handle>) {
    && (forall h :: h in keys ==> h < next && h !in freed)
    && (forall h :: h in freed ==> h < next)
    && (forall h: Handle :: h < next ==> h in keys || h in freed)
    && NoDup(freed)
  }

  /** Deferred transactions are live, and deferred once. */
  predicate DeferredOk(keys: set<Handle>, delayRm: seq<Handle>) {
    && NoDup(delayRm)
    && (forall h :: h in delayRm ==> h in keys)
  }

  predicate TxnOk(t: Txn) {
    && (t.status == Done <==> t.fate != Unresolved)
    && (t.status != Done ==> t.response == NoResponse)
    && (t.fate == Lost ==> t.response == REFUSAL)
    && (t.fate.Answered? ==> t.response == BuildResponse(t.fate.data))
    && (t.timer ==> t.status == Pending && !t.ping)
    && (t.ping ==> t.status != New && t.status != Ready)
    && (t.status == Ready ==> t.request != [])
  }

  predicate TxnsOk(txns: map<Handle, Txn>) {
    forall h :: h in txns ==> TxnOk(txns[h])
  }

  predicate Ledger(p: Pool) {
    && Indexed(p.txns, p.idMap)
    && Accounted(p.txns.Keys, p.next, p.freed)
    && DeferredOk(p.txns.Keys, p.delayRm)
    && TxnsOk(p.txns)
  }

  predicate PoolOk(p: Pool, away: set<Handle>) {
    QueuesOk(p, away) && Ledger(p)
  }

  // ----- one queue at a time -----

  lemma NoDupPush(q: seq<Handle>, h: Handle)
    requires NoDup(q) && h !in q
    ensures NoDup(q + [h])
  {
  }

  /** A queue is indifferent to a transaction that enters or changes elsewhere. */
  lemma QueueKeep(txns: map<Handle, Txn>, q: seq<Handle>, st: Status, away: set<Handle>, h: Handle, t: Txn)
    requires QueueOk(txns, q, st, away) && h !in q && t.status != st
    ensures QueueOk(txns[h := t], q, st, away)
  {
    hide NoDup;
  }

  lemma QueueEdit(txns: map<Handle, Txn>, q: seq<Handle>, st: Status, away: set<Handle>, h: Handle, t: Txn)
    requires QueueOk(txns, q, st, away) && h in txns && t.status == txns[h].status && t.ping == txns[h].ping
    ensures QueueOk(txns[h := t], q, st, away)
  {
    hide NoDup;
  }

  lemma QueuePush(txns: map<Handle, Txn>, q: seq<Handle>, st: Status, away: set<Handle>, h: Handle, t: Txn)
    requires QueueOk(txns, q, st, away) && h !in q && t.status == st
    ensures QueueOk(txns[h := t], q + [h], st, away)
  {
    NoDupPush(q, h);
    hide NoDup;
  }

  lemma QueuePull(txns: map<Handle, Txn>, q: seq<Handle>, st: Status, away: set<Handle>, h: Handle, t: Txn)
    requires QueueOk(txns, q, st, away) && t.status != st
    ensures QueueOk(txns[h := t], Without(q, h), st, away)
  {
    WithoutNoDup(q, h);
    hide NoDup;
    hide Without;
  }

  lemma QueueErase(txns: map<Handle, Txn>, q: seq<Handle>, st: Status, away: set<Handle>, h: Handle)
    requires QueueOk(txns, q, st, away)
    ensures QueueOk(txns - {h}, Without(q, h), st, away - {h})
  {
    WithoutNoDup(q, h);
    hide NoDup;
    hide Without;
  }

  /** A ping taken off its queue without being destroyed goes into `away`. */
  lemma QueueLose(txns: map<Handle, Txn>, q: seq<Handle>, st: Status, away: set<Handle>, h: Handle)
    requires QueueOk(txns, q, st, away) && h in txns && txns[h].ping
    ensures QueueOk(txns, Without(q, h), st, away + {h})
  {
    WithoutNoDup(q, h);
    hide NoDup;
    hide Without;
  }

  lemma QueueAway(txns: map<Handle, Txn>, q: seq<Handle>, st: Status, away: set<Handle>, more: set<Handle>)
    requires QueueOk(txns, q, st, away) && away <= more
    ensures QueueOk(txns, q, st, more)
  {
    hide NoDup;
  }

  // ----- the moves keep it -----

  predicate FreeId(p: Pool, id: nat) {
    1 <= id <= MAX_ID && id !in p.idMap
  }

  predicate SameTxn(t: Txn, u: Txn) {
    t.id == u.id && t.ping == u.ping
  }

  function AwayFor(st: Status, away: set<Handle>): set<Handle> {
    if st == Pending then away else {}
  }

  lemma QueuesFrom(p: Pool, away: set<Handle>)
    requires forall st :: QueueOk(p.txns, Queue(p, st), st, AwayFor(st, away))
    ensures QueuesOk(p, away)
  {
    hide QueueOk;
    assert QueueOk(p.txns, Queue(p, New), New, AwayFor(New, away));
    assert QueueOk(p.txns, Queue(p, Ready), Ready, AwayFor(Ready, away));
    assert QueueOk(p.txns, Queue(p, Pending), Pending, AwayFor(Pending, away));
    assert QueueOk(p.txns, Queue(p, Done), Done, AwayFor(Done, away));
  }

  lemma AddQueues(p: Pool, t: Txn, away: set<Handle>)
    requires QueuesOk(p, away) && p.next !in p.txns
    ensures QueuesOk(Add(p, t), away)
  {
    var h := p.next;
    forall st | st != t.status ensures QueueOk(p.txns[h := t], Queue(p, st), st, AwayFor(st, away)) {
      QueueKeep(p.txns, Queue(p, st), st, AwayFor(st, away), h, t);
    }
    QueuePush(p.txns, Queue(p, t.status), t.status, AwayFor(t.status, away), h, t);
    QueuesFrom(Add(p, t), away);
    hide QueueOk;
  }

  lemma AddIndexed(txns: map<Handle, Txn>, idMap: map<nat, Handle>, h: Handle, t: Txn)
    requires Indexed(txns, idMap) && h !in txns && 1 <= t.id <= MAX_ID && t.id !in idMap
    ensures Indexed(txns[h := t], idMap[t.id := h])
  {
  }

  lemma AddAccounted(keys: set<Handle>, next: Handle, freed: seq<Handle>)
    requires Accounted(keys, next, freed)
    ensures next !in keys && Accounted(keys + {next}, next + 1, freed)
  {
    hide NoDup;
  }

  lemma AddLedger(p: Pool, t: Txn)
    requires Ledger(p) && FreeId(p, t.id) && TxnOk(t)
    ensures p.next !in p.txns && Ledger(Add(p, t))
  {
    var h := p.next;
    AddAccounted(p.txns.Keys, p.next, p.freed);
    AddIndexed(p.txns, p.idMap, h, t);
    hide Indexed;
    hide Accounted;
    hide TxnOk;
    hide NoDup;
    assert p.txns[h := t].Keys == p.txns.Keys + {h};
  }

  lemma AddOk(p: Pool, t: Txn, away: set<Handle>)
    requires PoolOk(p, away) && FreeId(p, t.id) && TxnOk(t)
    ensures PoolOk(Add(p, t), away)
  {
    AddLedger(p, t);
    AddQueues(p, t, away);
    hide QueuesOk;
    hide Ledger;
  }

  lemma MoveQueue(p: Pool, h: Handle, t: Txn, st: Status)
    requires h in p.txns && t.status != p.txns[h].status
    ensures Queue(Move(p, h, t), st) ==
            if st == t.status then Queue(p, st) + [h]
            else if st == p.txns[h].status then Without(Queue(p, st), h)
            else Queue(p, st)
  {
    hide Without;
  }

  lemma MoveQueues(p: Pool, h: Handle, t: Txn, away: set<Handle>)
    requires QueuesOk(p, away)
    requires h in p.txns && t.status != p.txns[h].status
    ensures QueuesOk(Move(p, h, t), away)
  {
    var q := Move(p, h, t);
    assert q.txns == p.txns[h := t];
    assert forall st :: QueueOk(p.txns, Queue(p, st), st, AwayFor(st, away)) by { hide QueueOk; }
    forall st ensures QueueOk(q.txns, Queue(q, st), st, AwayFor(st, away)) {
      MoveQueue(p, h, t, st);
      MoveOneQueue(p.txns, Queue(p, st), st, AwayFor(st, away), h, t);
    }
    QueuesFrom(q, away);
    hide QueueOk;
  }

  /** The effect of a move on any one queue. */
  lemma MoveOneQueue(txns: map<Handle, Txn>, q: seq<Handle>, st: Status, away: set<Handle>, h: Handle, t: Txn)
    requires QueueOk(txns, q, st, away) && h in txns && t.status != txns[h].status
    ensures QueueOk(txns[h := t], if st == t.status then q + [h] else if st == txns[h].status then Without(q, h) else q,
                    st, away)
  {
    if st == t.status {
      QueuePush(txns, q, st, away, h, t);
    } else if st == txns[h].status {
      QueuePull(txns, q, st, away, h, t);
    } else {
      QueueKeep(txns, q, st, away, h, t);
    }
  }

  lemma EditIndexed(txns: map<Handle, Txn>, idMap: map<nat, Handle>, h: Handle, t: Txn)
    requires Indexed(txns, idMap) && h in txns && txns[h].id == t.id
    ensures Indexed(txns[h := t], idMap)
  {
  }

  lemma EditLedger(p: Pool, h: Handle, t: Txn)
    requires Ledger(p) && h in p.txns && SameTxn(p.txns[h], t) && TxnOk(t)
    ensures Ledger(Edit(p, h, t))
  {
    EditIndexed(p.txns, p.idMap, h, t);
    hide Indexed;
    hide Accounted;
    hide DeferredOk;
    hide TxnOk;
    assert p.txns[h := t].Keys == p.txns.Keys;
  }

  lemma MoveOk(p: Pool, h: Handle, t: Txn, away: set<Handle>)
    requires PoolOk(p, away)
    requires h in p.txns && t.status != p.txns[h].status
    requires SameTxn(p.txns[h], t) && TxnOk(t)
    ensures PoolOk(Move(p, h, t), away)
  {
    MoveQueues(p, h, t, away);
    EditLedger(p, h, t);
    hide QueuesOk;
    hide Indexed;
    hide Accounted;
    hide DeferredOk;
    hide TxnsOk;
    hide TxnOk;
  }

  lemma EditOk(p: Pool, h: Handle, t: Txn, away: set<Handle>)
    requires PoolOk(p, away)
    requires h in p.txns && SameTxn(p.txns[h], t) && TxnOk(t) && t.status == p.txns[h].status
    ensures PoolOk(Edit(p, h, t), away)
  {
    EditLedger(p, h, t);
    hide Ledger;
    hide TxnOk;
    forall st ensures QueueOk(p.txns[h := t], Queue(p, st), st, AwayFor(st, away)) {
      QueueEdit(p.txns, Queue(p, st), st, AwayFor(st, away), h, t);
    }
    QueuesFrom(Edit(p, h, t), away);
    hide QueueOk;
  }

  /** A ping leaves the pending queue before it is deleted. */
  lemma PullPingOk(p: Pool, h: Handle, away: set<Handle>)
    requires PoolOk(p, away) && h in p.txns && p.txns[h].ping
    ensures PoolOk(Pull(p, Pending, h), away + {h})
  {
    QueueLose(p.txns, p.pending, Pending, away, h);
    hide Indexed;
    hide Accounted;
    hide DeferredOk;
    hide TxnsOk;
    hide QueueOk;
  }

  lemma AwayOk(p: Pool, away: set<Handle>, more: set<Handle>)
    requires PoolOk(p, away) && away <= more
    ensures PoolOk(p, more)
  {
    QueueAway(p.txns, p.pending, Pending, away, more);
    hide Ledger;
    hide QueueOk;
  }

  lemma DeferOk(p: Pool, h: Handle, away: set<Handle>)
    requires PoolOk(p, away) && h in p.txns && h !in p.delayRm
    ensures PoolOk(Defer(p, h), away)
  {
    EditOk(p, h, p.txns[h].(timer := false), away);
    NoDupPush(p.delayRm, h);
    hide Indexed;
    hide Accounted;
    hide TxnOk;
    hide QueueOk;
    hide NoDup;
  }

  lemma EraseQueues(p: Pool, h: Handle, away: set<Handle>)
    requires QueuesOk(p, away) && h in p.txns
    ensures QueuesOk(Erase(p, h), away - {h})
  {
    forall st ensures QueueOk(p.txns - {h}, Without(Queue(p, st), h), st, AwayFor(st, away - {h})) {
      QueueErase(p.txns, Queue(p, st), st, AwayFor(st, away), h);
      assert AwayFor(st, away) - {h} == AwayFor(st, away - {h});
    }
    forall st | st != p.txns[h].status ensures Without(Queue(p, st), h) == Queue(p, st) {
      hide Without;
      hide NoDup;
    }
    QueuesFrom(Erase(p, h), away - {h});
    hide QueueOk;
    hide Without;
  }

  lemma EraseIndexed(txns: map<Handle, Txn>, idMap: map<nat, Handle>, h: Handle)
    requires Indexed(txns, idMap) && h in txns
    ensures Indexed(txns - {h}, idMap - {txns[h].id})
  {
  }

  lemma EraseAccounted(keys: set<Handle>, next: Handle, freed: seq<Handle>, h: Handle)
    requires Accounted(keys, next, freed) && h in keys
    ensures Accounted(keys - {h}, next, freed + [h])
  {
    NoDupPush(freed, h);
    hide NoDup;
  }

  lemma EraseOk(p: Pool, h: Handle, away: set<Handle>)
    requires PoolOk(p, away) && h in p.txns && h !in p.delayRm
    ensures PoolOk(Erase(p, h), away - {h})
  {
    EraseQueues(p, h, away);
    EraseIndexed(p.txns, p.idMap, h);
    EraseAccounted(p.txns.Keys, p.next, p.freed, h);
    hide QueuesOk;
    hide Indexed;
    hide Accounted;
    hide NoDup;
    hide TxnOk;
    assert (p.txns - {h}).Keys == p.txns.Keys - {h};
  }

  lemma DrainHeadOk(p: Pool, away: set<Handle>)
    requires PoolOk(p, away) && p.delayRm != []
    ensures PoolOk(DrainHead(p), away - {p.delayRm[0]})
  {
    var h, rest := p.delayRm[0], p.delayRm[1..];
    var q := p.(delayRm := rest);
    assert NoDup(rest) && h !in rest by {
      assert forall i :: 0 <= i < |rest| ==> rest[i] == p.delayRm[i + 1];
    }
    hide Indexed;
    hide Accounted;
    hide TxnOk;
    hide QueueOk;
    hide NoDup;
    EraseOk(q, h, away);
  }

  // ----- lookups -----

  /** The four queues one after the other, as the list of all transactions. */
  function AllQueued(p: Pool): seq<Handle> {
    p.newq + p.ready + p.pending + p.done
  }

  /** Looking an id up agrees with scanning the four queues, when no ping waits
      for its deletion. */
  lemma LookupAgreesWithScan(p: Pool, id: nat, h: Handle)
    requires PoolOk(p, {})
    ensures id in p.idMap && p.idMap[id] == h
            <==> h in AllQueued(p) && h in p.txns && p.txns[h].id == id
  {
  }

  lemma NoDupConcat(a: seq<Handle>, b: seq<Handle>)
    requires NoDup(a) && NoDup(b) && forall x :: x in a ==> x !in b
    ensures NoDup(a + b)
  {
    var c := a + b;
    forall i, j | 0 <= i < j < |c| ensures c[i] != c[j] {
      if i < |a| <= j {
        assert c[i] in a && c[j] in b;
      }
    }
  }

  /** A transaction is in at most one queue, and there once. */
  lemma QueuedOnce(p: Pool, away: set<Handle>)
    requires PoolOk(p, away)
    ensures NoDup(AllQueued(p))
  {
    NoDupConcat(p.newq, p.ready);
    NoDupConcat(p.newq + p.ready, p.pending);
    NoDupConcat(p.newq + p.ready + p.pending, p.done);
  }
}
