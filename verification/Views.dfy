/** What a user can see of a connection: how many transactions there are, which, and
    which one has a given id. */
module Views {
  import opened Bytes
  import opened Pool
  import opened Engine
  import opened Core
  import opened Invariant
  import opened Connection
  import opened Handler

  /** The queues asked for, one after the other; no status means all. */
  function ListOf(p: Pool, want: Option<Status>): seq<Handle> {
    if want == None then AllQueued(p) else Queue(p, want.value)
  }

  predicate Wanted(t: Txn, want: Option<Status>) {
    want == None || t.status == want.value
  }

  function Chosen(p: Pool, want: Option<Status>): set<Handle> {
    set h | h in p.txns && Wanted(p.txns[h], want)
  }

  /** At rest the queues list exactly the transactions asked for, each once. */
  lemma ListIsExact(p: Pool, want: Option<Status>)
    requires PoolOk(p, {})
    ensures NoDup(ListOf(p, want))
    ensures forall h :: h in ListOf(p, want) <==> h in Chosen(p, want)
    ensures |ListOf(p, want)| == |Chosen(p, want)|
  {
    QueuedOnce(p, {});
    EachQueue(p);
    hide Ledger, NoDup, QueueOk;
    if want.Some? {
      assert QueueOk(p.txns, Queue(p, want.value), want.value, {});
      QueueIsExact(p.txns, Queue(p, want.value), want.value);
    } else {
      AllExact(p);
    }
    Cardinality(ListOf(p, want), Chosen(p, want));
  }

  lemma EachQueue(p: Pool)
    requires PoolOk(p, {})
    ensures forall st :: QueueOk(p.txns, Queue(p, st), st, {})
  {
    hide Ledger, QueueOk;
  }

  lemma QueueIsExact(txns: map<Handle, Txn>, q: seq<Handle>, st: Status)
    requires QueueOk(txns, q, st, {})
    ensures NoDup(q) && forall h :: h in q <==> h in txns && txns[h].status == st
  {
    hide NoDup;
  }

  lemma AllExact(p: Pool)
    requires PoolOk(p, {})
    ensures forall h :: h in AllQueued(p) <==> h in p.txns
  {
    hide Ledger, NoDup;
  }

  lemma {:induction false} Cardinality(q: seq<Handle>, all: set<Handle>)
    requires NoDup(q) && forall h :: h in q <==> h in all
    ensures |q| == |all|
    decreases |q|
  {
    if q == [] {
      assert all == {};
    } else {
      var init, last := q[..|q| - 1], q[|q| - 1];
      assert q == init + [last];
      assert last !in init;
      assert forall h :: h in init <==> h in all - {last};
      Cardinality(init, all - {last});
    }
  }

  method TransCount(c: Conn, want: Option<Status>) returns (n: nat)
    requires Valid(c)
    ensures n == |ListOf(c.View().pool, want)|
    ensures c.pc == Quiet ==> n == |Chosen(c.View().pool, want)|
  {
    hide Inv, Reached, Chosen, Wanted;
    ReachedInv(c.View());
    n := 0;
    if want == None || want == Some(Status.New) {
      n := n + |c.transNew|;
    }
    if want == None || want == Some(Status.Ready) {
      n := n + |c.transReady|;
    }
    if want == None || want == Some(Status.Pending) {
      n := n + |c.transPending|;
    }
    if want == None || want == Some(Status.Done) {
      n := n + |c.transDone|;
    }
    ghost var s := c.View();
    if s.ctl.pc == Quiet {
      QuietPool(s);
      ListIsExact(s.pool, want);
    }
  }

  lemma QuietPool(s: State)
    requires Inv(s) && s.ctl.pc == Quiet
    ensures PoolOk(s.pool, {})
  {
    hide CoreOk, Coupled, PingOk, FirstOk, LogMatches, DeliveredOk;
    assert Away(s) == {};
    PoolOf(s);
  }

  lemma PoolOf(s: State)
    requires CoreOk(s, Away(s))
    ensures PoolOk(s.pool, Away(s))
  {
  }

  /** Appends the members of a queue, if it is asked for. */
  method ListAppend(list: seq<Trans>, asked: bool, queue: seq<Trans>) returns (r: seq<Trans>)
    ensures r == list + if asked then queue else []
  {
    r := list;
    if asked {
      for i := 0 to |queue|
        invariant r == list + queue[..i]
      {
        r := r + [queue[i]];
      }
    }
  }

  lemma HandlesOfSum(a: seq<Trans>, b: seq<Trans>)
    ensures Handles(a + b) == Handles(a) + Handles(b)
  {
  }

  predicate Asks(want: Option<Status>, st: Status) {
    want == None || want == Some(st)
  }

  function Part(want: Option<Status>, st: Status, q: seq<Trans>): seq<Trans> {
    if Asks(want, st) then q else []
  }

  lemma HandlesOfParts(a: seq<Trans>, b: seq<Trans>, c: seq<Trans>, d: seq<Trans>)
    ensures Handles([] + a + b + c + d) == Handles(a) + Handles(b) + Handles(c) + Handles(d)
  {
    HandlesOfSum([] + a + b + c, d);
    HandlesOfSum([] + a + b, c);
    HandlesOfSum([] + a, b);
    assert [] + a == a;
    hide Handles;
  }

  /** The list, as a value. */
  lemma ListInParts(c: Conn, want: Option<Status>)
    ensures Handles(Part(want, Status.New, c.transNew)) + Handles(Part(want, Status.Ready, c.transReady))
            + Handles(Part(want, Status.Pending, c.transPending)) + Handles(Part(want, Status.Done, c.transDone))
            == ListOf(c.View().pool, want)
  {
    assert Handles([]) == [];
    hide Handles;
  }

  lemma QueuesKnown(c: Conn)
    requires c.Rep()
    ensures AllKnown(c.live, c.transNew) && AllKnown(c.live, c.transReady)
    ensures AllKnown(c.live, c.transPending) && AllKnown(c.live, c.transDone)
  {
    hide Homed;
  }

  method TransList(c: Conn, want: Option<Status>) returns (list: seq<Trans>)
    requires Valid(c)
    ensures Handles(list) == ListOf(c.View().pool, want) && AllKnown(c.live, list)
    ensures c.pc == Quiet ==> NoDup(Handles(list))
                              && forall h :: h in Handles(list) <==> h in Chosen(c.View().pool, want)
  {
    hide Inv, Reached, Handles, Conn.Rep, NoDup, Chosen, ListOf, Conn.PoolView;
    ReachedInv(c.View());
    QueuesKnown(c);
    list := ListAppend([], Asks(want, Status.New), c.transNew);
    list := ListAppend(list, Asks(want, Status.Ready), c.transReady);
    list := ListAppend(list, Asks(want, Status.Pending), c.transPending);
    list := ListAppend(list, Asks(want, Status.Done), c.transDone);
    ListInParts(c, want);
    HandlesOfParts(Part(want, Status.New, c.transNew), Part(want, Status.Ready, c.transReady),
                   Part(want, Status.Pending, c.transPending), Part(want, Status.Done, c.transDone));
    ghost var s := c.View();
    if s.ctl.pc == Quiet {
      QuietPool(s);
      ListIsExact(s.pool, want);
    }
  }

  /** The one transaction with this id, if there is one. */
  method GetTransByInternalId(c: Conn, id: nat) returns (t: Trans?)
    requires Valid(c)
    ensures t == null <==> forall h :: h in c.View().pool.txns ==> c.View().pool.txns[h].id != id
    ensures t != null ==> Known(c.live, t) && t.id == id
    ensures t != null && c.pc == Quiet ==> t.handle in AllQueued(c.View().pool)
  {
    ghost var s := c.View();
    ReachedInv(s) by { hide Inv; }
    IndexedPool(s);
    if id !in c.transIdMap {
      NoSuchId(c, id);
      return null;
    }
    t := c.transIdMap[id];
    HeldAt(c.live, t);
    if s.ctl.pc == Quiet {
      QuietPool(s);
      AllExact(s.pool);
    }
    hide Inv, Reached, Homed, Handles, AllKnown, PoolOk;
  }

  lemma IndexedPool(s: State)
    requires Inv(s)
    ensures Indexed(s.pool.txns, s.pool.idMap)
  {
    hide QueuesOk, Accounted, DeferredOk, TxnsOk, PrintsOk, InSendOrder, WireOk, PastOk, InputOk, TraceOk, BatchOk,
         RepliesOk, DeliveredOk, Alive;
  }

  lemma NoSuchId(c: Conn, id: nat)
    requires c.Rep() && Indexed(c.View().pool.txns, c.View().pool.idMap) && id !in c.transIdMap
    ensures forall h :: h in c.View().pool.txns ==> c.View().pool.txns[h].id != id
  {
    hide Homed, Handles, AllKnown;
    assert id !in c.View().pool.idMap;
  }
}
