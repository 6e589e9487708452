/** The events queued for the user, as words over two small automata: one per
    transaction and one for the connection. */
module Traces {
  import opened Bytes
  import opened Pool
  import opened Engine

  // ----- one transaction -----

  /** How far the events of a transaction have come: nothing but NOCONNECT, a
      TIMEOUT, a final event, DONE or ERROR; `Bad` for anything out of order. */
  datatype Phase = Open | Warned | Ended(done: bool) | Bad

  function About(m: Mark): Option<Handle> {
    match m
    case Attempt => None
    case Queues(e) =>
      match e
      case ConnConnected => None
      case ConnDisconnect => None
      case ConnError => None
      case TransDone(h) => Some(h)
      case TransError(h) => Some(h)
      case TransNoConnect(h) => Some(h)
      case TransTimeout(h) => Some(h)
  }

  function NextPhase(ph: Phase, e: Event): Phase {
    match e
    case TransNoConnect(_) => if ph == Open then Open else Bad
    case TransTimeout(_) => if ph == Open then Warned else Bad
    case TransDone(_) => if ph == Open || ph == Warned then Ended(true) else Bad
    case TransError(_) => if ph == Open || ph == Warned then Ended(false) else Bad
    case _ => ph
  }

  function PhaseOf(log: seq<Mark>, h: Handle): Phase
    decreases |log|
  {
    if log == [] then Open
    else
      var m, before := log[|log| - 1], PhaseOf(log[..|log| - 1], h);
      if About(m) == Some(h) then NextPhase(before, m.event) else before
  }

  lemma PhaseSnoc(log: seq<Mark>, m: Mark, h: Handle)
    ensures PhaseOf(log + [m], h) == if About(m) == Some(h) then NextPhase(PhaseOf(log, h), m.event) else PhaseOf(log, h)
  {
    assert (log + [m])[..|log|] == log;
  }

  /** The events about `h`, in order. */
  function EventsOf(log: seq<Mark>, h: Handle): seq<Event>
    decreases |log|
  {
    if log == [] then []
    else
      var m, before := log[|log| - 1], EventsOf(log[..|log| - 1], h);
      if About(m) == Some(h) then before + [m.event] else before
  }

  /** NOCONNECT* TIMEOUT? (DONE|ERROR)?, with `n`, `t` and `f` saying where each
      part ends. */
  predicate Shaped(es: seq<Event>, n: nat, t: nat) {
    && n <= t <= |es| && t <= n + 1 && |es| <= t + 1
    && (forall i :: 0 <= i < n ==> es[i].TransNoConnect?)
    && (forall i :: n <= i < t ==> es[i].TransTimeout?)
    && (forall i :: t <= i < |es| ==> es[i].TransDone? || es[i].TransError?)
  }

  ghost predicate InLanguage(es: seq<Event>) {
    exists n: nat, t: nat :: Shaped(es, n, t)
  }

  /** The automaton run on a list of events. */
  function Run(es: seq<Event>): Phase {
    if es == [] then Open else NextPhase(Run(es[..|es| - 1]), es[|es| - 1])
  }

  predicate OfTrans(e: Event) {
    e.TransDone? || e.TransError? || e.TransNoConnect? || e.TransTimeout?
  }

  lemma {:induction false} PhaseIsRun(log: seq<Mark>, h: Handle)
    ensures PhaseOf(log, h) == Run(EventsOf(log, h))
    ensures forall i :: 0 <= i < |EventsOf(log, h)| ==> OfTrans(EventsOf(log, h)[i])
    decreases |log|
  {
    if log != [] {
      var m, before := log[|log| - 1], EventsOf(log[..|log| - 1], h);
      PhaseIsRun(log[..|log| - 1], h);
      if About(m) == Some(h) {
        assert (before + [m.event])[..|before|] == before;
      }
    }
  }

  /** The automaton accepts exactly the language. */
  lemma {:induction false} RunAccepts(es: seq<Event>)
    requires forall i :: 0 <= i < |es| ==> OfTrans(es[i])
    ensures Run(es) == Open <==> Shaped(es, |es|, |es|)
    ensures Run(es) == Warned <==> es != [] && Shaped(es, |es| - 1, |es|)
    ensures Run(es).Ended? <==> es != [] && (Shaped(es, |es| - 1, |es| - 1) || (|es| >= 2 && Shaped(es, |es| - 2, |es| - 1)))
    ensures Run(es) != Bad <==> InLanguage(es)
    decreases |es|
  {
    if es == [] {
      assert Shaped(es, 0, 0);
    } else {
      var k := |es| - 1;
      var a := es[..k];
      RunAccepts(a);
      ShapedPrefix(es);
      assert Run(es) != Bad ==> InLanguage(es);
      if InLanguage(es) {
        var n: nat, t: nat :| Shaped(es, n, t);
        assert n == |es| || (n == k && t == |es|) || (t == k && (n == k || n == k - 1));
      }
    }
  }

  predicate Final(e: Event) {
    e.TransDone? || e.TransError?
  }

  /** Where the automaton stands tells which final event there was, if any. */
  lemma RunTellsFinal(es: seq<Event>)
    requires (forall i :: 0 <= i < |es| ==> OfTrans(es[i])) && Run(es) != Bad
    ensures forall i :: 0 <= i < |es| - 1 ==> !Final(es[i])
    ensures Run(es) == Ended(true) ==> es != [] && es[|es| - 1].TransDone?
    ensures Run(es) == Ended(false) ==> es != [] && es[|es| - 1].TransError?
    ensures !Run(es).Ended? ==> forall i :: 0 <= i < |es| ==> !Final(es[i])
  {
    RunAccepts(es);
  }

  lemma {:induction false} EventsAreAbout(log: seq<Mark>, h: Handle)
    ensures forall i :: 0 <= i < |EventsOf(log, h)| ==> About(Queues(EventsOf(log, h)[i])) == Some(h)
    decreases |log|
  {
    if log != [] {
      EventsAreAbout(log[..|log| - 1], h);
    }
  }

  /** The same for the events of one transaction in a log. */
  lemma PhaseTellsFinal(log: seq<Mark>, h: Handle)
    requires PhaseOf(log, h) != Bad
    ensures var ph, es := PhaseOf(log, h), EventsOf(log, h);
            && (forall i :: 0 <= i < |es| - 1 ==> !Final(es[i]))
            && (ph == Ended(true) ==> es != [] && es[|es| - 1] == TransDone(h))
            && (ph == Ended(false) ==> es != [] && es[|es| - 1] == TransError(h))
            && (!ph.Ended? ==> forall i :: 0 <= i < |es| ==> !Final(es[i]))
  {
    hide EventsOf, Run;
    PhaseIsRun(log, h);
    RunTellsFinal(EventsOf(log, h));
    EventsAreAbout(log, h);
  }

  /** Shapes of a list and of the list without its last event. */
  lemma ShapedPrefix(es: seq<Event>)
    requires es != []
    ensures var k := |es| - 1; var a := es[..k];
            && (Shaped(es, |es|, |es|) <==> Shaped(a, k, k) && es[k].TransNoConnect?)
            && (Shaped(es, k, |es|) <==> Shaped(a, k, k) && es[k].TransTimeout?)
            && (Shaped(es, k, k) <==> Shaped(a, k, k) && (es[k].TransDone? || es[k].TransError?))
            && (k >= 1 ==> (Shaped(es, k - 1, k) <==> Shaped(a, k - 1, k) && (es[k].TransDone? || es[k].TransError?)))
  {
    var k := |es| - 1;
    var a := es[..k];
    assert forall i :: 0 <= i < k ==> a[i] == es[i];
  }

  /** A prefix of a word of the language is one too. */
  lemma LanguagePrefix(es: seq<Event>, k: nat)
    requires InLanguage(es) && k <= |es|
    ensures InLanguage(es[..k])
  {
    var n: nat, t: nat :| Shaped(es, n, t);
    var a := es[..k];
    assert Shaped(a, if n <= k then n else k, if t <= k then t else k);
  }

  // ----- the connection -----

  datatype LinkPhase = Down | Trying | Live | Wrong

  /** An attempt, then at most one CONNECTED, then one DISCONNECT or ERROR, and
      no event at all until the next attempt. */
  function NextLink(ph: LinkPhase, m: Mark): LinkPhase {
    match m
    case Attempt => if ph == Down then Trying else Wrong
    case Queues(e) =>
      match e
      case ConnConnected => if ph == Trying then Live else Wrong
      case ConnDisconnect => if ph == Trying || ph == Live then Down else Wrong
      case ConnError => if ph == Trying || ph == Live then Down else Wrong
      case TransDone(_) => if ph == Live then Live else Wrong
      case TransTimeout(_) => if ph == Live then Live else Wrong
      case TransError(_) => if ph == Trying || ph == Live then ph else Wrong
      case TransNoConnect(_) => if ph == Trying || ph == Live then ph else Wrong
  }

  function LinkPhaseOf(log: seq<Mark>): LinkPhase
    decreases |log|
  {
    if log == [] then Down else NextLink(LinkPhaseOf(log[..|log| - 1]), log[|log| - 1])
  }

  lemma LinkSnoc(log: seq<Mark>, m: Mark)
    ensures LinkPhaseOf(log + [m]) == NextLink(LinkPhaseOf(log), m)
  {
    assert (log + [m])[..|log|] == log;
  }

  /** Is entry `i` a terminal connection event? */
  predicate Terminal(m: Mark) {
    m == Queues(ConnDisconnect) || m == Queues(ConnError)
  }

  /** What acceptance means: every prefix is accepted. */
  lemma {:induction false} AcceptedPrefix(log: seq<Mark>, k: nat)
    requires LinkPhaseOf(log) != Wrong && k <= |log|
    ensures LinkPhaseOf(log[..k]) != Wrong
    decreases |log|
  {
    if k == |log| {
      assert log[..k] == log;
    } else {
      AcceptedPrefix(log[..|log| - 1], k);
      assert log[..|log| - 1][..k] == log[..k];
    }
  }

  /** After a terminal event nothing is queued before a new attempt; a CONNECTED
      follows an attempt with no other CONNECTED or terminal event between. */
  lemma AcceptedMeaning(log: seq<Mark>, i: nat)
    requires LinkPhaseOf(log) != Wrong && i + 1 < |log|
    ensures Terminal(log[i]) ==> log[i + 1] == Attempt
    ensures log[i + 1] == Attempt ==> Terminal(log[i])
  {
    AcceptedPrefix(log, i);
    AcceptedPrefix(log, i + 1);
    AcceptedPrefix(log, i + 2);
    LinkAt(log, i);
    LinkAt(log, i + 1);
    hide LinkPhaseOf;
    TwoMarks(LinkPhaseOf(log[..i]), log[i], log[i + 1]);
  }

  lemma LinkAt(log: seq<Mark>, i: nat)
    requires i < |log|
    ensures LinkPhaseOf(log[..i + 1]) == NextLink(LinkPhaseOf(log[..i]), log[i])
  {
    LinkSnoc(log[..i], log[i]);
    assert log[..i + 1] == log[..i] + [log[i]];
  }

  lemma TwoMarks(ph: LinkPhase, m: Mark, n: Mark)
    requires ph != Wrong && NextLink(ph, m) != Wrong && NextLink(NextLink(ph, m), n) != Wrong
    ensures Terminal(m) <==> n == Attempt
  {
  }

  /** Between two CONNECTED events there is a new attempt. */
  lemma {:induction false} OneConnectedPerAttempt(log: seq<Mark>, i: nat, j: nat)
    requires LinkPhaseOf(log) != Wrong && i < j < |log|
    requires log[i] == Queues(ConnConnected)
    requires forall k :: i < k < j ==> log[k] != Attempt
    ensures log[j] != Queues(ConnConnected)
    ensures LinkPhaseOf(log[..j]) == Live || LinkPhaseOf(log[..j]) == Down
    decreases j
  {
    AcceptedPrefix(log, j);
    AcceptedPrefix(log, j + 1);
    LinkSnoc(log[..j], log[j]);
    assert log[..j + 1] == log[..j] + [log[j]];
    assert log[..j] == log[..j - 1] + [log[j - 1]];
    LinkSnoc(log[..j - 1], log[j - 1]);
    AcceptedPrefix(log, j - 1);
    if i < j - 1 {
      OneConnectedPerAttempt(log, i, j - 1);
    }
  }

  // ----- what was queued and what was delivered -----

  function Emitted(log: seq<Mark>): seq<Event>
    decreases |log|
  {
    if log == [] then []
    else
      var before := Emitted(log[..|log| - 1]);
      match log[|log| - 1]
      case Attempt => before
      case Queues(e) => before + [e]
  }

  lemma EmittedSnoc(log: seq<Mark>, m: Mark)
    ensures Emitted(log + [m]) == if m == Attempt then Emitted(log) else Emitted(log) + [m.event]
  {
    assert (log + [m])[..|log|] == log;
  }

  /** The events about `h` in a plain list of events. */
  function Of(es: seq<Event>, h: Handle): seq<Event>
    decreases |es|
  {
    if es == [] then []
    else
      var e, before := es[|es| - 1], Of(es[..|es| - 1], h);
      if About(Queues(e)) == Some(h) then before + [e] else before
  }

  lemma {:induction false} EventsOfEmitted(log: seq<Mark>, h: Handle)
    ensures EventsOf(log, h) == Of(Emitted(log), h)
    decreases |log|
  {
    if log != [] {
      var m, rest := log[|log| - 1], log[..|log| - 1];
      EventsOfEmitted(rest, h);
      if m != Attempt {
        assert (Emitted(rest) + [m.event])[..|Emitted(rest)|] == Emitted(rest);
      }
    }
  }

  /** The events about `h` in a prefix are a prefix of the events about `h`. */
  lemma {:induction false} OfPrefix(es: seq<Event>, k: nat, h: Handle)
    requires k <= |es|
    ensures |Of(es[..k], h)| <= |Of(es, h)| && Of(es[..k], h) == Of(es, h)[..|Of(es[..k], h)|]
    decreases |es|
  {
    if k == |es| {
      assert es[..k] == es;
    } else {
      var rest := es[..|es| - 1];
      OfPrefix(rest, k, h);
      assert rest[..k] == es[..k];
    }
  }
}
