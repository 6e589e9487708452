/** The two kinds of locks, one per connection and one per transaction: what each
    function does with them, why no number of threads on any number of connections
    can block each other, and when destroying a connection is safe. */
module Locks {
  import opened Bytes
  import opened Pool

  type ConnId = nat

  datatype Lock = ConnLock(conn: ConnId) | TransLock(conn: ConnId, trans: Handle)

  /** What a thread does, as far as locks are concerned. `Touch` changes a status of
      the connection, or moves a transaction between its queues, or frees them;
      `Callback` enters code of the user. */
  datatype Action = Take(lock: Lock) | Drop(lock: Lock) | Touch(conn: ConnId) | Callback

  /** The locks a thread holds: at most one of each kind. */
  datatype Held = Held(conn: Option<ConnId>, trans: Option<(ConnId, Handle)>)

  const NONE := Held(None, None)

  function Holding(c: ConnId): Held {
    Held(Some(c), None)
  }

  /** The discipline: a connection lock is taken only with empty hands, one
      transaction lock at a time and released before the connection lock, callbacks
      are entered with empty hands; and, where `strict`, statuses and queues change
      only under the lock of their connection. The result is what is held
      afterwards, if that was obeyed. */
  function Act(a: Action, h: Held, strict: bool): Option<Held> {
    match a
    case Take(ConnLock(c)) => if h == NONE then Some(Holding(c)) else None
    case Take(TransLock(c, t)) => if h.trans == None then Some(h.(trans := Some((c, t)))) else None
    case Drop(ConnLock(c)) => if h == Holding(c) then Some(NONE) else None
    case Drop(TransLock(c, t)) => if h.trans == Some((c, t)) then Some(h.(trans := None)) else None
    case Touch(c) => if !strict || h.conn == Some(c) then Some(h) else None
    case Callback => if h == NONE then Some(h) else None
  }

  function After(prog: seq<Action>, h: Held, strict: bool): Option<Held> {
    if prog == [] then Some(h)
    else
      match Act(prog[0], h, strict)
      case None => None
      case Some(h1) => After(prog[1..], h1, strict)
  }

  lemma {:induction false} AfterConcat(a: seq<Action>, b: seq<Action>, h: Held, strict: bool)
    ensures After(a + b, h, strict) == if After(a, h, strict) == None then None else After(b, After(a, h, strict).value, strict)
    decreases |a|
  {
    if a == [] {
      assert a + b == b;
    } else {
      assert (a + b)[0] == a[0] && (a + b)[1..] == a[1..] + b;
      if Act(a[0], h, strict).Some? {
        AfterConcat(a[1..], b, Act(a[0], h, strict).value, strict);
      }
    }
  }

  /** Who obeys everything obeys the rest of it. */
  lemma {:induction false} StrictIsEnough(prog: seq<Action>, h: Held)
    requires After(prog, h, true).Some?
    ensures After(prog, h, false) == After(prog, h, true)
    decreases |prog|
  {
    if prog != [] {
      StrictIsEnough(prog[1..], Act(prog[0], h, true).value);
    }
  }

  /** A piece of program that obeys everything and leaves the hands as it found them. */
  predicate Neutral(prog: seq<Action>, h: Held) {
    After(prog, h, true) == Some(h)
  }

  lemma NeutralConcat(a: seq<Action>, b: seq<Action>, h: Held)
    requires Neutral(a, h) && Neutral(b, h)
    ensures Neutral(a + b, h)
  {
    AfterConcat(a, b, h, true);
  }

  // ----- the pieces -----

  function Conn(c: ConnId, inner: seq<Action>): seq<Action> {
    [Take(ConnLock(c))] + inner + [Drop(ConnLock(c))]
  }

  /** Dropping the connection lock for something that takes it itself. */
  function Releasing(c: ConnId, inner: seq<Action>): seq<Action> {
    [Drop(ConnLock(c))] + inner + [Take(ConnLock(c))]
  }

  function OnTrans(c: ConnId, t: Handle, touch: bool): seq<Action> {
    [Take(TransLock(c, t))] + (if touch then [Touch(c)] else []) + [Drop(TransLock(c, t))]
  }

  /** One transaction after the other, each under its lock. */
  function OnEach(c: ConnId, q: seq<Handle>): seq<Action> {
    if q == [] then [] else [Touch(c)] + OnTrans(c, q[0], true) + [Touch(c)] + OnEach(c, q[1..])
  }


  /** `LM_conn_cleanup_ping`, which drops the lock to delete the ping. */
  function CleanupPing(c: ConnId): seq<Action> {
    [Touch(c)] + Releasing(c, Conn(c, [Touch(c)]))
  }

  function SetConnectedProgram(c: ConnId, ready: seq<Handle>): seq<Action> {
    CleanupPing(c) + [Touch(c)] + OnEach(c, ready)
  }

  /** What `LM_conn_destroy` does after it has dropped the lock: the four queues and
      the index are freed, with no lock held. */
  function Teardown(c: ConnId): seq<Action> {
    [Touch(c), Touch(c), Touch(c), Touch(c), Touch(c)]
  }

  /** `LM_conn_destroy`: only noted while the handler runs. */
  function DestroyProgram(c: ConnId, inUse: bool): seq<Action> {
    Conn(c, []) + if inUse then [] else Teardown(c)
  }

  // ----- calls and handler runs -----

  /** The user's I/O callback, if there is one, and the calls it makes. */
  datatype IoCode = NoIoCode | IoCode(calls: seq<Call>)

  datatype Call =
    | New(c: ConnId)
    | OnOne(c: ConnId, t: Handle)         // parameters, timeout, getters
    | Send(c: ConnId, t: Handle, accepted: bool, down: bool, io: IoCode, ready: seq<Handle>)
    | Locked(c: ConnId)                   // delete, disconnect, idle timeout
    | Look(c: ConnId)                     // counts, lists, lookups
    | Connect(c: ConnId, io: IoCode)
    | Destroy(c: ConnId, inUse: bool)

  /** Dropping the lock for the user's I/O callback. */
  function IoProgram(c: ConnId, io: IoCode): seq<Action>
    decreases io, 0
  {
    match io
    case NoIoCode => []
    case IoCode(calls) => Releasing(c, [Callback] + Calls(calls))
  }

  /** `LM_conn_connect`. */
  function ConnectProgram(c: ConnId, io: IoCode): seq<Action>
    decreases io, 1
  {
    Conn(c, IoProgram(c, io) + [Touch(c)])
  }

  /** `LM_trans_send_messages`: connect when disconnected, else send what is ready. */
  function SendMessagesProgram(c: ConnId, down: bool, io: IoCode, ready: seq<Handle>): seq<Action>
    decreases io, 2
  {
    if down then Releasing(c, ConnectProgram(c, io)) else OnEach(c, ready)
  }

  function CallProgram(call: Call): seq<Action>
    decreases call, 3
  {
    match call
    case New(c) => Conn(c, [Touch(c)])
    case OnOne(c, t) => OnTrans(c, t, false)
    case Send(c, t, accepted, down, io, ready) =>
      if accepted then Conn(c, OnTrans(c, t, true) + SendMessagesProgram(c, down, io, ready))
      else Conn(c, OnTrans(c, t, false))
    case Locked(c) => Conn(c, [Touch(c)])
    case Look(c) => Conn(c, [])
    case Connect(c, io) => ConnectProgram(c, io)
    case Destroy(c, inUse) => DestroyProgram(c, inUse)
  }

  function Calls(cs: seq<Call>): seq<Action>
    decreases cs, 4
  {
    if cs == [] then [] else CallProgram(cs[0]) + Calls(cs[1..])
  }

  /** What the read loop meets: a completed transaction, or the reply to the ping. */
  datatype Hit = Answered(t: Handle) | Ping(t: Handle, ready: seq<Handle>)

  function ReadProgram(c: ConnId, hits: seq<Hit>): seq<Action> {
    if hits == [] then []
    else
      (match hits[0]
       case Answered(t) => OnTrans(c, t, true) + OnTrans(c, t, false)
       case Ping(t, ready) => OnTrans(c, t, true) + SetConnectedProgram(c, ready))
      + ReadProgram(c, hits[1..])
  }

  datatype Cause =
    | Connected(ready: seq<Handle>)                        // pings off
    | PingSent(t: Handle)
    | Lost(pending: seq<Handle>)
    | Read(hits: seq<Hit>, broken: bool, pending: seq<Handle>)
    | Write
    | TransTimer(t: Handle)
    | PingTimer(pending: seq<Handle>)
    | IdleTimer

  function CauseProgram(c: ConnId, cause: Cause): seq<Action> {
    match cause
    case Connected(ready) => SetConnectedProgram(c, ready)
    case PingSent(t) => OnTrans(c, t, false) + [Touch(c)]
    case Lost(pending) => OnEach(c, pending)
    case Read(hits, broken, pending) => ReadProgram(c, hits) + if broken then OnEach(c, pending) else []
    case Write => []
    case TransTimer(t) => OnTrans(c, t, false)
    case PingTimer(pending) => CleanupPing(c) + OnEach(c, pending)
    case IdleTimer => [Touch(c)]
  }

  /** Each event: the callback, the calls made in it, a look at the destroy flag. */
  function DeliverProgram(c: ConnId, callbacks: seq<seq<Call>>): seq<Action> {
    if callbacks == [] then []
    else [Callback] + Calls(callbacks[0]) + Conn(c, []) + DeliverProgram(c, callbacks[1..])
  }

  /** The handler after its events: drain, reconnect, look for a destroy request. */
  function LeaveProgram(c: ConnId, reconnect: bool, io: IoCode): seq<Action> {
    Conn(c, [Touch(c)]) + (if reconnect then ConnectProgram(c, io) else []) + Conn(c, [])
  }

  /** `LM_conntrans_event_handler`. */
  function HandlerProgram(c: ConnId, cause: Cause, callbacks: seq<seq<Call>>, reconnect: bool, io: IoCode, destroyed: bool): seq<Action> {
    Conn(c, CauseProgram(c, cause)) + DeliverProgram(c, callbacks) + LeaveProgram(c, reconnect, io)
    + if destroyed then DestroyProgram(c, false) else []
  }

  datatype Job =
    | User(calls: seq<Call>)
    | Handler(c: ConnId, cause: Cause, callbacks: seq<seq<Call>>, reconnect: bool, io: IoCode, destroyed: bool)

  function JobProgram(j: Job): seq<Action> {
    match j
    case User(calls) => Calls(calls)
    case Handler(c, cause, callbacks, reconnect, io, destroyed) =>
      HandlerProgram(c, cause, callbacks, reconnect, io, destroyed)
  }

  function Program(jobs: seq<Job>): seq<Action> {
    if jobs == [] then [] else JobProgram(jobs[0]) + Program(jobs[1..])
  }

  // ----- what destroys a connection -----

  predicate IoTearsDown(io: IoCode)
    decreases io, 0
  {
    match io
    case NoIoCode => false
    case IoCode(calls) => CallsTearDown(calls)
  }

  predicate CallTearsDown(call: Call)
    decreases call, 1
  {
    match call
    case Destroy(_, inUse) => !inUse
    case Connect(_, io) => IoTearsDown(io)
    case Send(_, _, accepted, down, io, _) => accepted && down && IoTearsDown(io)
    case _ => false
  }

  predicate CallsTearDown(cs: seq<Call>)
    decreases cs, 2
  {
    exists i :: 0 <= i < |cs| && CallTearsDown(cs[i])
  }

  predicate AnyTearsDown(callbacks: seq<seq<Call>>) {
    exists i :: 0 <= i < |callbacks| && CallsTearDown(callbacks[i])
  }

  predicate JobTearsDown(j: Job) {
    match j
    case User(calls) => CallsTearDown(calls)
    case Handler(_, _, callbacks, reconnect, io, destroyed) =>
      destroyed || AnyTearsDown(callbacks) || (reconnect && IoTearsDown(io))
  }

  predicate TearsDown(jobs: seq<Job>) {
    exists i :: 0 <= i < |jobs| && JobTearsDown(jobs[i])
  }

  // ----- the pieces obey -----

  lemma ConnNeutral(c: ConnId, inner: seq<Action>)
    requires Neutral(inner, Holding(c))
    ensures Neutral(Conn(c, inner), NONE)
  {
    AfterConcat([Take(ConnLock(c))] + inner, [Drop(ConnLock(c))], NONE, true);
    AfterConcat([Take(ConnLock(c))], inner, NONE, true);
    assert After([Drop(ConnLock(c))], Holding(c), true) == Some(NONE);
  }

  lemma ReleasingNeutral(c: ConnId, inner: seq<Action>)
    requires Neutral(inner, NONE)
    ensures Neutral(Releasing(c, inner), Holding(c))
  {
    AfterConcat([Drop(ConnLock(c))] + inner, [Take(ConnLock(c))], Holding(c), true);
    AfterConcat([Drop(ConnLock(c))], inner, Holding(c), true);
    assert After([Take(ConnLock(c))], NONE, true) == Some(Holding(c));
  }

  lemma TransNeutral(c: ConnId, t: Handle, touch: bool, h: Held)
    requires h == Holding(c) || (h == NONE && !touch)
    ensures Neutral(OnTrans(c, t, touch), h)
  {
    var mid := if touch then [Touch(c)] else [];
    var inside := h.(trans := Some((c, t)));
    AfterConcat([Take(TransLock(c, t))] + mid, [Drop(TransLock(c, t))], h, true);
    AfterConcat([Take(TransLock(c, t))], mid, h, true);
    assert After(mid, inside, true) == Some(inside);
    assert After([Drop(TransLock(c, t))], inside, true) == Some(h);
  }

  lemma TouchNeutral(c: ConnId)
    ensures Neutral([Touch(c)], Holding(c)) && Neutral([], Holding(c)) && Neutral([], NONE) && Neutral([Callback], NONE)
  {
    assert [Touch(c)][1..] == [] && [Callback][1..] == [];
  }

  lemma {:induction false} EachNeutral(c: ConnId, q: seq<Handle>)
    ensures Neutral(OnEach(c, q), Holding(c))
  {
    if q != [] {
      TouchNeutral(c);
      TransNeutral(c, q[0], true, Holding(c));
      NeutralConcat([Touch(c)], OnTrans(c, q[0], true), Holding(c));
      NeutralConcat([Touch(c)] + OnTrans(c, q[0], true), [Touch(c)], Holding(c));
      EachNeutral(c, q[1..]);
      NeutralConcat([Touch(c)] + OnTrans(c, q[0], true) + [Touch(c)], OnEach(c, q[1..]), Holding(c));
    }
  }

  lemma CleanupNeutral(c: ConnId)
    ensures Neutral(CleanupPing(c), Holding(c))
  {
    TouchNeutral(c);
    ConnNeutral(c, [Touch(c)]);
    ReleasingNeutral(c, Conn(c, [Touch(c)]));
    NeutralConcat([Touch(c)], Releasing(c, Conn(c, [Touch(c)])), Holding(c));
  }

  lemma SetConnectedNeutral(c: ConnId, ready: seq<Handle>)
    ensures Neutral(SetConnectedProgram(c, ready), Holding(c))
  {
    TouchNeutral(c);
    CleanupNeutral(c);
    EachNeutral(c, ready);
    NeutralConcat(CleanupPing(c), [Touch(c)], Holding(c));
    NeutralConcat(CleanupPing(c) + [Touch(c)], OnEach(c, ready), Holding(c));
  }

  lemma {:induction false} ReadNeutral(c: ConnId, hits: seq<Hit>)
    ensures Neutral(ReadProgram(c, hits), Holding(c))
  {
    if hits != [] {
      var t := hits[0].t;
      TransNeutral(c, t, true, Holding(c));
      ReadNeutral(c, hits[1..]);
      if hits[0].Answered? {
        TransNeutral(c, t, false, Holding(c));
        NeutralConcat(OnTrans(c, t, true), OnTrans(c, t, false), Holding(c));
        NeutralConcat(OnTrans(c, t, true) + OnTrans(c, t, false), ReadProgram(c, hits[1..]), Holding(c));
      } else {
        SetConnectedNeutral(c, hits[0].ready);
        NeutralConcat(OnTrans(c, t, true), SetConnectedProgram(c, hits[0].ready), Holding(c));
        NeutralConcat(OnTrans(c, t, true) + SetConnectedProgram(c, hits[0].ready), ReadProgram(c, hits[1..]), Holding(c));
      }
    }
  }

  lemma CauseNeutral(c: ConnId, cause: Cause)
    ensures Neutral(CauseProgram(c, cause), Holding(c))
  {
    TouchNeutral(c);
    match cause
    case Connected(ready) => SetConnectedNeutral(c, ready);
    case PingSent(t) =>
      TransNeutral(c, t, false, Holding(c));
      NeutralConcat(OnTrans(c, t, false), [Touch(c)], Holding(c));
    case Lost(pending) => EachNeutral(c, pending);
    case Read(hits, broken, pending) =>
      ReadNeutral(c, hits);
      EachNeutral(c, pending);
      NeutralConcat(ReadProgram(c, hits), if broken then OnEach(c, pending) else [], Holding(c));
    case Write =>
    case TransTimer(t) => TransNeutral(c, t, false, Holding(c));
    case PingTimer(pending) =>
      CleanupNeutral(c);
      EachNeutral(c, pending);
      NeutralConcat(CleanupPing(c), OnEach(c, pending), Holding(c));
    case IdleTimer =>
  }

  // ----- whole programs -----

  /** A piece of program always orders its locks and leaves the hands as it found
      them; it keeps to the connection lock for statuses and queues exactly when it
      does not tear a connection down. */
  predicate Verdict(prog: seq<Action>, h: Held, tears: bool) {
    && After(prog, h, false) == Some(h)
    && After(prog, h, true) == if tears then None else Some(h)
  }

  lemma VerdictNeutral(prog: seq<Action>, h: Held)
    requires Neutral(prog, h)
    ensures Verdict(prog, h, false)
  {
    StrictIsEnough(prog, h);
  }

  lemma VerdictConcat(a: seq<Action>, ta: bool, b: seq<Action>, tb: bool, h: Held)
    requires Verdict(a, h, ta) && Verdict(b, h, tb)
    ensures Verdict(a + b, h, ta || tb)
  {
    AfterConcat(a, b, h, true);
    AfterConcat(a, b, h, false);
  }

  lemma AfterConn(c: ConnId, inner: seq<Action>, strict: bool)
    ensures After(inner, Holding(c), strict) == Some(Holding(c)) ==> After(Conn(c, inner), NONE, strict) == Some(NONE)
    ensures After(inner, Holding(c), strict) == None ==> After(Conn(c, inner), NONE, strict) == None
  {
    AfterConcat([Take(ConnLock(c))] + inner, [Drop(ConnLock(c))], NONE, strict);
    AfterConcat([Take(ConnLock(c))], inner, NONE, strict);
    assert After([Drop(ConnLock(c))], Holding(c), strict) == Some(NONE);
  }

  lemma VerdictConn(c: ConnId, inner: seq<Action>, tears: bool)
    requires Verdict(inner, Holding(c), tears)
    ensures Verdict(Conn(c, inner), NONE, tears)
  {
    AfterConn(c, inner, true);
    AfterConn(c, inner, false);
  }

  lemma AfterReleasing(c: ConnId, inner: seq<Action>, strict: bool)
    ensures After(inner, NONE, strict) == Some(NONE) ==> After(Releasing(c, inner), Holding(c), strict) == Some(Holding(c))
    ensures After(inner, NONE, strict) == None ==> After(Releasing(c, inner), Holding(c), strict) == None
  {
    AfterConcat([Drop(ConnLock(c))] + inner, [Take(ConnLock(c))], Holding(c), strict);
    AfterConcat([Drop(ConnLock(c))], inner, Holding(c), strict);
    assert After([Take(ConnLock(c))], NONE, strict) == Some(Holding(c));
  }

  lemma VerdictReleasing(c: ConnId, inner: seq<Action>, tears: bool)
    requires Verdict(inner, NONE, tears)
    ensures Verdict(Releasing(c, inner), Holding(c), tears)
  {
    AfterReleasing(c, inner, true);
    AfterReleasing(c, inner, false);
  }

  lemma VerdictTeardown(c: ConnId)
    ensures Verdict(Teardown(c), NONE, true)
  {
    var t := Teardown(c);
    assert After(t[5..], NONE, false) == Some(NONE);
    assert t[4..][1..] == t[5..] && t[3..][1..] == t[4..] && t[2..][1..] == t[3..] && t[1..][1..] == t[2..];
    assert After(t[4..], NONE, false) == Some(NONE) && After(t[3..], NONE, false) == Some(NONE);
    assert After(t[2..], NONE, false) == Some(NONE) && After(t[1..], NONE, false) == Some(NONE);
  }

  lemma VerdictDestroy(c: ConnId, inUse: bool)
    ensures Verdict(DestroyProgram(c, inUse), NONE, !inUse)
  {
    TouchNeutral(c);
    ConnNeutral(c, []);
    VerdictNeutral(Conn(c, []), NONE);
    VerdictNeutral([], NONE);
    VerdictTeardown(c);
    VerdictConcat(Conn(c, []), false, if inUse then [] else Teardown(c), !inUse, NONE);
  }

  lemma {:induction false} VerdictIo(c: ConnId, io: IoCode)
    ensures Verdict(IoProgram(c, io), Holding(c), IoTearsDown(io))
    decreases io, 0
  {
    hide Verdict, Calls, CallsTearDown;
    VerdictEmpty(Holding(c));
    if io.IoCode? {
      TouchNeutral(c);
      VerdictNeutral([Callback], NONE);
      VerdictCalls(io.calls);
      VerdictConcat([Callback], false, Calls(io.calls), CallsTearDown(io.calls), NONE);
      VerdictReleasing(c, [Callback] + Calls(io.calls), CallsTearDown(io.calls));
    }
  }

  lemma {:induction false} VerdictConnect(c: ConnId, io: IoCode)
    ensures Verdict(ConnectProgram(c, io), NONE, IoTearsDown(io))
    decreases io, 1
  {
    hide Verdict, IoProgram, IoTearsDown;
    TouchNeutral(c);
    VerdictNeutral([Touch(c)], Holding(c));
    VerdictIo(c, io);
    VerdictConcat(IoProgram(c, io), IoTearsDown(io), [Touch(c)], false, Holding(c));
    VerdictConn(c, IoProgram(c, io) + [Touch(c)], IoTearsDown(io));
  }

  lemma {:induction false} VerdictSend(c: ConnId, t: Handle, down: bool, io: IoCode, ready: seq<Handle>)
    ensures Verdict(Conn(c, OnTrans(c, t, true) + SendMessagesProgram(c, down, io, ready)), NONE, down && IoTearsDown(io))
    decreases io, 2
  {
    hide Verdict, ConnectProgram, IoTearsDown, OnEach, OnTrans;
    var p := SendMessagesProgram(c, down, io, ready);
    TransNeutral(c, t, true, Holding(c));
    VerdictNeutral(OnTrans(c, t, true), Holding(c));
    if down {
      VerdictConnect(c, io);
      VerdictReleasing(c, ConnectProgram(c, io), IoTearsDown(io));
    } else {
      EachNeutral(c, ready);
      VerdictNeutral(p, Holding(c));
    }
    VerdictConcat(OnTrans(c, t, true), false, p, down && IoTearsDown(io), Holding(c));
    VerdictConn(c, OnTrans(c, t, true) + p, down && IoTearsDown(io));
  }

  lemma {:induction false} VerdictCall(call: Call)
    ensures Verdict(CallProgram(call), NONE, CallTearsDown(call))
    decreases call, 3
  {
    hide Verdict, ConnectProgram, SendMessagesProgram, IoTearsDown, Conn, OnTrans;
    TouchNeutral(call.c);
    match call
    case Destroy(c, inUse) => VerdictDestroy(c, inUse);
    case Connect(c, io) => VerdictConnect(c, io);
    case Send(c, t, accepted, down, io, ready) =>
      if accepted {
        VerdictSend(c, t, down, io, ready);
      } else {
        TransNeutral(c, t, false, Holding(c));
        ConnNeutral(c, OnTrans(c, t, false));
        VerdictNeutral(CallProgram(call), NONE);
      }
    case OnOne(c, t) =>
      TransNeutral(c, t, false, NONE);
      VerdictNeutral(CallProgram(call), NONE);
    case _ =>
      ConnNeutral(call.c, if call.Look? then [] else [Touch(call.c)]);
      VerdictNeutral(CallProgram(call), NONE);
  }

  lemma {:induction false} VerdictCalls(cs: seq<Call>)
    ensures Verdict(Calls(cs), NONE, CallsTearDown(cs))
    decreases cs, 4
  {
    hide Verdict, CallProgram, CallTearsDown;
    if cs == [] {
      VerdictEmpty(NONE);
    } else {
      VerdictCall(cs[0]);
      VerdictCalls(cs[1..]);
      VerdictConcat(CallProgram(cs[0]), CallTearsDown(cs[0]), Calls(cs[1..]), CallsTearDown(cs[1..]), NONE);
      assert CallsTearDown(cs) <==> CallTearsDown(cs[0]) || CallsTearDown(cs[1..]) by {
        assert forall i :: 0 <= i < |cs[1..]| ==> cs[1..][i] == cs[i + 1];
        assert forall i :: 1 <= i < |cs| ==> cs[i] == cs[1..][i - 1];
      }
    }
  }

  lemma VerdictEmpty(h: Held)
    ensures Verdict([], h, false)
  {
  }

  lemma {:induction false} VerdictDeliver(c: ConnId, callbacks: seq<seq<Call>>)
    ensures Verdict(DeliverProgram(c, callbacks), NONE, AnyTearsDown(callbacks))
  {
    hide Verdict, Calls, CallsTearDown, Conn;
    if callbacks == [] {
      VerdictEmpty(NONE);
    } else {
      var one, more := callbacks[0], callbacks[1..];
      TouchNeutral(c);
      ConnNeutral(c, []);
      VerdictNeutral([Callback], NONE);
      VerdictNeutral(Conn(c, []), NONE);
      VerdictCalls(one);
      VerdictDeliver(c, more);
      VerdictConcat([Callback], false, Calls(one), CallsTearDown(one), NONE);
      VerdictConcat([Callback] + Calls(one), CallsTearDown(one), Conn(c, []), false, NONE);
      VerdictConcat([Callback] + Calls(one) + Conn(c, []), CallsTearDown(one), DeliverProgram(c, more), AnyTearsDown(more), NONE);
      assert AnyTearsDown(callbacks) <==> CallsTearDown(one) || AnyTearsDown(more) by {
        assert forall i :: 0 <= i < |more| ==> more[i] == callbacks[i + 1];
        assert forall i :: 1 <= i < |callbacks| ==> callbacks[i] == more[i - 1];
      }
    }
  }

  lemma VerdictLeave(c: ConnId, reconnect: bool, io: IoCode)
    ensures Verdict(LeaveProgram(c, reconnect, io), NONE, reconnect && IoTearsDown(io))
  {
    TouchNeutral(c);
    ConnNeutral(c, [Touch(c)]);
    ConnNeutral(c, []);
    VerdictNeutral(Conn(c, [Touch(c)]), NONE);
    VerdictNeutral(Conn(c, []), NONE);
    VerdictConnect(c, io);
    VerdictEmpty(NONE);
    hide Verdict, Conn, ConnectProgram, IoTearsDown;
    var e := if reconnect then ConnectProgram(c, io) else [];
    VerdictConcat(Conn(c, [Touch(c)]), false, e, reconnect && IoTearsDown(io), NONE);
    VerdictConcat(Conn(c, [Touch(c)]) + e, reconnect && IoTearsDown(io), Conn(c, []), false, NONE);
  }

  lemma VerdictJob(j: Job)
    ensures Verdict(JobProgram(j), NONE, JobTearsDown(j))
  {
    hide Verdict, Calls, CallsTearDown, Conn, DeliverProgram, LeaveProgram, CauseProgram, DestroyProgram, IoTearsDown;
    match j
    case User(calls) => VerdictCalls(calls);
    case Handler(c, cause, callbacks, reconnect, io, destroyed) =>
      CauseNeutral(c, cause);
      ConnNeutral(c, CauseProgram(c, cause));
      VerdictNeutral(Conn(c, CauseProgram(c, cause)), NONE);
      VerdictLeave(c, reconnect, io);
      VerdictDeliver(c, callbacks);
      VerdictDestroy(c, false);
      VerdictEmpty(NONE);
      var any, again := AnyTearsDown(callbacks), reconnect && IoTearsDown(io);
      VerdictConcat(Conn(c, CauseProgram(c, cause)), false, DeliverProgram(c, callbacks), any, NONE);
      VerdictConcat(Conn(c, CauseProgram(c, cause)) + DeliverProgram(c, callbacks), any, LeaveProgram(c, reconnect, io), again, NONE);
      VerdictConcat(Conn(c, CauseProgram(c, cause)) + DeliverProgram(c, callbacks) + LeaveProgram(c, reconnect, io), any || again,
                    if destroyed then DestroyProgram(c, false) else [], destroyed, NONE);
  }

  /** Every sequence of calls and handler runs, with whatever calls the callbacks of
      both kinds make, on any number of connections, takes and drops its locks by the rules and
      ends with empty hands. It changes statuses and queues only under the lock of
      their connection if and only if it destroys no connection object. */
  lemma {:induction false} EveryProgramObeys(jobs: seq<Job>)
    ensures After(Program(jobs), NONE, false) == Some(NONE)
    ensures After(Program(jobs), NONE, true) == Some(NONE) <==> !TearsDown(jobs)
    ensures Verdict(Program(jobs), NONE, TearsDown(jobs))
  {
    hide Verdict, JobProgram, JobTearsDown;
    if jobs == [] {
      VerdictEmpty(NONE);
    } else {
      VerdictJob(jobs[0]);
      EveryProgramObeys(jobs[1..]);
      VerdictConcat(JobProgram(jobs[0]), JobTearsDown(jobs[0]), Program(jobs[1..]), TearsDown(jobs[1..]), NONE);
      assert TearsDown(jobs) <==> JobTearsDown(jobs[0]) || TearsDown(jobs[1..]) by {
        assert forall i :: 0 <= i < |jobs[1..]| ==> jobs[1..][i] == jobs[i + 1];
        assert forall i :: 1 <= i < |jobs| ==> jobs[i] == jobs[1..][i - 1];
      }
    }
    VerdictMeans(Program(jobs), TearsDown(jobs));
  }

  lemma VerdictMeans(prog: seq<Action>, tears: bool)
    requires Verdict(prog, NONE, tears)
    ensures After(prog, NONE, false) == Some(NONE) && (After(prog, NONE, true) == Some(NONE) <==> !tears)
  {
  }

  // ----- any number of threads -----

  /** What each thread still has to do, and what it holds. */
  datatype System = System(todo: seq<seq<Action>>, held: seq<Held>)

  predicate Free(s: System, l: Lock) {
    match l
    case ConnLock(c) => forall j :: 0 <= j < |s.held| ==> s.held[j].conn != Some(c)
    case TransLock(c, t) => forall j :: 0 <= j < |s.held| ==> s.held[j].trans != Some((c, t))
  }

  /** Thread `i` is not done and not blocked. */
  predicate CanRun(s: System, i: nat) {
    i < |s.todo| && s.todo[i] != [] && (s.todo[i][0].Take? ==> Free(s, s.todo[i][0].lock))
  }

  /** Locks exclude, and each thread will order its locks to its end. */
  predicate Orderly(s: System) {
    && |s.todo| == |s.held|
    && (forall i :: 0 <= i < |s.todo| ==> After(s.todo[i], s.held[i], false) == Some(NONE))
    && (forall i, j :: 0 <= i < j < |s.held| ==>
          && (s.held[i].conn.Some? ==> s.held[i].conn != s.held[j].conn)
          && (s.held[i].trans.Some? ==> s.held[i].trans != s.held[j].trans))
  }

  function RunOne(s: System, i: nat): System
    requires Orderly(s) && CanRun(s, i)
  {
    System(s.todo[i := s.todo[i][1..]], s.held[i := Act(s.todo[i][0], s.held[i], false).value])
  }

  lemma RunKeepsOrder(s: System, i: nat)
    requires Orderly(s) && CanRun(s, i)
    ensures Orderly(RunOne(s, i))
  {
    hide After;
    assert After(s.todo[i], s.held[i], false) == Some(NONE);
    AfterOne(s.todo[i], s.held[i], false);
  }

  lemma AfterOne(prog: seq<Action>, h: Held, strict: bool)
    requires prog != [] && After(prog, h, strict) == Some(NONE)
    ensures Act(prog[0], h, strict).Some? && After(prog[1..], Act(prog[0], h, strict).value, strict) == Some(NONE)
  {
  }

  lemma DoneHoldsNothing(s: System, i: nat)
    requires Orderly(s) && i < |s.todo| && s.todo[i] == []
    ensures s.held[i] == NONE
  {
    assert After(s.todo[i], s.held[i], false) == Some(NONE);
  }

  lemma NextAllowed(s: System, i: nat)
    requires Orderly(s) && i < |s.todo| && s.todo[i] != []
    ensures Act(s.todo[i][0], s.held[i], false).Some?
  {
    assert After(s.todo[i], s.held[i], false) == Some(NONE);
  }

  /** As long as some thread is not done, some thread can run; and if only thread `i`,
      holding nothing, is set aside, some other one can. */
  lemma OtherCanRun(s: System, i: nat)
    requires Orderly(s) && (i < |s.held| ==> s.held[i] == NONE)
    requires exists j :: 0 <= j < |s.todo| && j != i && s.todo[j] != []
    ensures exists j :: j != i && CanRun(s, j)
  {
    forall j | 0 <= j < |s.todo|
      ensures s.todo[j] == [] ==> s.held[j] == NONE
      ensures s.todo[j] != [] ==> Act(s.todo[j][0], s.held[j], false).Some?
    {
      if s.todo[j] == [] { DoneHoldsNothing(s, j); } else { NextAllowed(s, j); }
    }
    hide After;
    if j :| 0 <= j < |s.held| && s.held[j].trans.Some? {
      assert CanRun(s, j);
    } else if j :| 0 <= j < |s.held| && s.held[j].conn.Some? {
      assert CanRun(s, j);
    } else {
      var j :| 0 <= j < |s.todo| && j != i && s.todo[j] != [];
      assert CanRun(s, j);
    }
  }

  lemma NoDeadlock(s: System)
    requires Orderly(s) && exists i :: 0 <= i < |s.todo| && s.todo[i] != []
    ensures exists i :: CanRun(s, i)
  {
    OtherCanRun(s, |s.todo|);
  }

  /** A run of the threads: at each point one that can run takes its next action. */
  predicate Schedule(states: seq<System>, picks: seq<nat>) {
    && |states| == |picks| + 1
    && forall k :: 0 <= k < |picks| ==>
         Orderly(states[k]) && CanRun(states[k], picks[k]) && states[k + 1] == RunOne(states[k], picks[k])
  }

  function Start(work: seq<seq<Job>>): System {
    System(seq(|work|, i requires 0 <= i < |work| => Program(work[i])), seq(|work|, i => NONE))
  }

  lemma StartIsOrderly(work: seq<seq<Job>>)
    ensures Orderly(Start(work))
  {
    forall i | 0 <= i < |work| ensures After(Start(work).todo[i], Start(work).held[i], false) == Some(NONE) {
      EveryProgramObeys(work[i]);
    }
  }

  /** Under every schedule of any number of threads on any number of connections, each
      making any calls and running any handlers, also destroying connections, the
      system never blocks before all are done. */
  lemma NeverBlocks(work: seq<seq<Job>>, states: seq<System>, picks: seq<nat>, k: nat)
    requires Schedule(states, picks) && states[0] == Start(work) && k < |states|
    ensures Orderly(states[k])
    ensures (exists i :: CanRun(states[k], i)) || forall i :: 0 <= i < |states[k].todo| ==> states[k].todo[i] == []
  {
    if k == 0 {
      StartIsOrderly(work);
    } else {
      RunKeepsOrder(states[k - 1], picks[k - 1]);
    }
    hide Orderly, Program;
    if exists i :: 0 <= i < |states[k].todo| && states[k].todo[i] != [] {
      NoDeadlock(states[k]);
    }
  }

  /** A thread that destroys nothing, when it changes a status or a queue, is alone in
      holding the lock of that connection. */
  lemma TouchIsExclusive(s: System, i: nat, j: nat)
    requires Orderly(s) && CanRun(s, i) && s.todo[i][0].Touch? && j < |s.held| && j != i
    requires After(s.todo[i], s.held[i], true) == Some(NONE)
    ensures s.held[i].conn == Some(s.todo[i][0].conn) && s.held[j].conn != s.held[i].conn
  {
    AfterOne(s.todo[i], s.held[i], true);
    hide After;
  }

  /** In every reachable state, a thread whose work destroys nothing still obeys
      everything. */
  lemma {:induction false} StrictToTheEnd(work: seq<seq<Job>>, states: seq<System>, picks: seq<nat>, k: nat, i: nat)
    requires Schedule(states, picks) && states[0] == Start(work) && k < |states|
    requires i < |work| && !TearsDown(work[i])
    ensures |states[k].todo| == |states[k].held| == |work|
    ensures After(states[k].todo[i], states[k].held[i], true) == Some(NONE)
    decreases k
  {
    hide Program, TearsDown;
    if k == 0 {
      EveryProgramObeys(work[i]);
    } else {
      StrictToTheEnd(work, states, picks, k - 1, i);
      var s, n := states[k - 1], picks[k - 1];
      assert states[k] == RunOne(s, n);
      if n == i {
        AfterOne(s.todo[i], s.held[i], true);
        SameAct(s.todo[i][0], s.held[i]);
      }
    }
  }

  lemma SameAct(a: Action, h: Held)
    requires Act(a, h, true).Some?
    ensures Act(a, h, false) == Act(a, h, true)
  {
  }

  // ----- destroying a connection -----

  /** Does this action use the connection object, a lock of it or of its transactions? */
  predicate Uses(a: Action, c: ConnId) {
    match a
    case Take(l) => l.conn == c
    case Drop(l) => l.conn == c
    case Touch(d) => d == c
    case Callback => false
  }

  predicate WillUse(prog: seq<Action>, c: ConnId) {
    exists k :: 0 <= k < |prog| && Uses(prog[k], c)
  }

  /** A schedule from `s` in which thread `i` does not move. */
  predicate Aside(s: System, i: nat, states: seq<System>, picks: seq<nat>) {
    Schedule(states, picks) && states[0] == s && forall k :: 0 <= k < |picks| ==> picks[k] != i
  }

  /** Some other thread can come to use connection `c` while thread `i` stands still. */
  ghost predicate Races(s: System, i: nat, c: ConnId) {
    exists states: seq<System>, picks: seq<nat>, j: nat :: Aside(s, i, states, picks) && RacesNow(states[|picks|], i, j, c)
  }

  predicate RacesNow(s: System, i: nat, j: nat, c: ConnId) {
    j != i && CanRun(s, j) && Uses(s.todo[j][0], c)
  }

  function Remaining(todo: seq<seq<Action>>): nat {
    if todo == [] then 0 else |todo[0]| + Remaining(todo[1..])
  }

  lemma {:induction false} RemainingLess(todo: seq<seq<Action>>, i: nat, p: seq<Action>)
    requires i < |todo| && |p| < |todo[i]|
    ensures Remaining(todo[i := p]) < Remaining(todo)
    decreases |todo|
  {
    var t := todo[i := p];
    if i == 0 {
      assert t[1..] == todo[1..];
    } else {
      RemainingLess(todo[1..], i - 1, p);
      assert t[1..] == todo[1..][i - 1 := p];
    }
  }

  lemma WillUseRest(prog: seq<Action>, c: ConnId)
    requires prog != []
    ensures WillUse(prog, c) <==> Uses(prog[0], c) || WillUse(prog[1..], c)
  {
    assert forall k :: 0 <= k < |prog[1..]| ==> prog[1..][k] == prog[k + 1];
    assert forall k :: 1 <= k < |prog| ==> prog[k] == prog[1..][k - 1];
  }

  /** While a thread has a use of `c` before it, the others can be run up to one. */
  lemma {:induction false} ReachUse(s: System, i: nat, c: ConnId, j: nat) returns (states: seq<System>, picks: seq<nat>, n: nat)
    requires Orderly(s) && i < |s.todo| && s.held[i] == NONE
    requires j < |s.todo| && j != i && WillUse(s.todo[j], c)
    ensures Aside(s, i, states, picks) && RacesNow(states[|picks|], i, n, c)
    decreases Remaining(s.todo)
  {
    hide After, Uses;
    OtherCanRun(s, i);
    n :| n != i && CanRun(s, n);
    if Uses(s.todo[n][0], c) {
      states, picks := [s], [];
    } else {
      var r := RunOne(s, n);
      RunKeepsOrder(s, n);
      WillUseRest(s.todo[n], c);
      RemainingLess(s.todo, n, s.todo[n][1..]);
      var m := n;
      states, picks, n := ReachUse(r, i, c, j);
      Prefixed(s, i, m, states, picks);
      states, picks := [s] + states, [m] + picks;
    }
  }

  lemma Prefixed(s: System, i: nat, n: nat, states: seq<System>, picks: seq<nat>)
    requires Orderly(s) && CanRun(s, n) && n != i && Aside(RunOne(s, n), i, states, picks)
    ensures Aside(s, i, [s] + states, [n] + picks) && ([s] + states)[|[n] + picks|] == states[|picks|]
  {
    hide Orderly, CanRun, RunOne;
    var ss, pp := [s] + states, [n] + picks;
    forall k | 0 <= k < |pp| ensures Orderly(ss[k]) && CanRun(ss[k], pp[k]) && ss[k + 1] == RunOne(ss[k], pp[k]) {
      if k > 0 {
        assert ss[k] == states[k - 1] && pp[k] == picks[k - 1] && ss[k + 1] == states[k];
      }
    }
  }

  /** What a thread will do later it had to do before. */
  lemma {:induction false} UsesAreOld(s: System, i: nat, states: seq<System>, picks: seq<nat>, k: nat, j: nat, c: ConnId)
    requires Aside(s, i, states, picks) && k < |states| && j < |states[k].todo| && WillUse(states[k].todo[j], c)
    ensures j < |s.todo| && WillUse(s.todo[j], c)
    decreases k
  {
    hide Uses, WillUse;
    if k > 0 {
      var p, n := states[k - 1], picks[k - 1];
      assert states[k] == RunOne(p, n);
      if j == n { WillUseRest(p.todo[j], c); }
      UsesAreOld(s, i, states, picks, k - 1, j, c);
    }
  }

  /** Exactly when destroying a connection without its lock is safe. Thread `i`, with
      empty hands, is about to free connection `c`: some other thread can come to use
      the connection meanwhile if and only if some other thread has a use of it still
      to do. So the teardown is exclusive just when nobody else will touch the
      connection any more. */
  lemma TeardownRacesIff(s: System, i: nat, c: ConnId)
    requires Orderly(s) && i < |s.todo| && s.held[i] == NONE
    ensures Races(s, i, c) <==> exists j :: 0 <= j < |s.todo| && j != i && WillUse(s.todo[j], c)
  {
    hide Orderly, Uses, WillUse;
    if Races(s, i, c) {
      var states: seq<System>, picks: seq<nat>, j: nat :| Aside(s, i, states, picks) && RacesNow(states[|picks|], i, j, c);
      WillUseRest(states[|picks|].todo[j], c);
      UsesAreOld(s, i, states, picks, |picks|, j, c);
    }
    if j :| 0 <= j < |s.todo| && j != i && WillUse(s.todo[j], c) {
      var states, picks, n := ReachUse(s, i, c, j);
    }
  }
}
