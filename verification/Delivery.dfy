/**
 Task messages between the stream and the fetch loops of one daemon. Every re-subscribe starts
 another loop; all of them pull from one durable consumer, one message at a time. A delivery that
 is not settled within AckWait is made again, to whichever loop asks next, while the first loop may
 still be at work; what that loop sends later still counts.
 */
module Delivery {
  /** Seconds after which a rejected message comes back. */
  const NAK_DELAY := 30

  datatype Config = Config(instance: string, ackWait: nat)

  datatype Payload = Poison | TaskFor(provider: string, job: string)

  /** The server may deliver a message from `dueAt` on, until it is `gone`. HandleTask has taken it
      `accepts` times; of the acknowledgements that follow an acceptance `acked` arrived and `lost`
      never will; `dropped` marks a message acknowledged after a rejection. */
  datatype Msg = Msg(payload: Payload, dueAt: int, gone: bool, accepts: nat, acked: nat, lost: nat, dropped: bool)

  /** How far a loop has come with the message it holds. */
  datatype Stage = Received | Accepted | Rejected

  datatype Work = Work(msg: nat, stage: Stage, deadline: int)

  /** `loops` are the fetch loops that currently hold a message. */
  datatype State = State(clock: int, msgs: seq<Msg>, loops: map<nat, Work>)

  datatype Event =
    | Publish(wait: nat, payload: Payload)
    | Fetch(wait: nat, worker: nat, msg: nat)
    | Handle(wait: nat, worker: nat, healthy: bool)
    | Ack(wait: nat, worker: nat, arrives: bool)
    | Nak(wait: nat, worker: nat, sent: bool, ackArrives: bool)
    | Stop(wait: nat, worker: nat)

  const Start := State(0, [], map[])

  predicate Addressed(p: Payload, instance: string) { p.TaskFor? && p.provider == instance }

  function Free(loops: map<nat, Work>, w: nat): map<nat, Work> { map i | i in loops && i != w :: loops[i] }

  // ----- What a settlement does to the message -----

  /** An Ack that arrives removes the message, from whatever delivery it comes. */
  function Acked(m: Msg, accepted: bool, arrives: bool): Msg {
    if arrives then m.(gone := true, acked := m.acked + if accepted then 1 else 0)
    else m.(lost := m.lost + if accepted then 1 else 0)
  }

  /** A Nak schedules the next delivery; if it cannot be sent, the loop acknowledges instead. */
  function Naked(m: Msg, now: int, sent: bool, ackArrives: bool): Msg {
    if sent then m.(dueAt := now + NAK_DELAY)
    else if ackArrives then m.(gone := true, dropped := true)
    else m
  }

  // ----- The steps; one that does not apply changes nothing but the time -----

  function AfterFetch(s: State, w: nat, i: nat, c: Config): State {
    if w in s.loops || i >= |s.msgs| || s.msgs[i].gone || s.clock < s.msgs[i].dueAt then s
    else
      var deadline := s.clock + c.ackWait;
      s.(msgs := s.msgs[i := s.msgs[i].(dueAt := deadline)], loops := s.loops[w := Work(i, Received, deadline)])
  }

  predicate Holds(s: State, w: nat) { w in s.loops && s.loops[w].msg < |s.msgs| }

  function Held(s: State, w: nat): Msg
    requires Holds(s, w)
  {
    s.msgs[s.loops[w].msg]
  }

  function AfterHandle(s: State, w: nat, healthy: bool, c: Config): State {
    if !Holds(s, w) || s.loops[w].stage != Received || !Addressed(Held(s, w).payload, c.instance) then s
    else if healthy then
      s.(msgs := s.msgs[s.loops[w].msg := Held(s, w).(accepts := Held(s, w).accepts + 1)],
         loops := s.loops[w := s.loops[w].(stage := Accepted)])
    else s.(loops := s.loops[w := s.loops[w].(stage := Rejected)])
  }

  function Settled(s: State, w: nat, m: Msg): State
    requires Holds(s, w)
  {
    s.(msgs := s.msgs[s.loops[w].msg := m], loops := Free(s.loops, w))
  }

  function AfterAck(s: State, w: nat, arrives: bool, c: Config): State {
    if !Holds(s, w) || s.loops[w].stage == Rejected
      || (s.loops[w].stage == Received && Addressed(Held(s, w).payload, c.instance)) then s
    else Settled(s, w, Acked(Held(s, w), s.loops[w].stage == Accepted, arrives))
  }

  function AfterNak(s: State, w: nat, sent: bool, ackArrives: bool): State {
    if !Holds(s, w) || s.loops[w].stage != Rejected then s
    else Settled(s, w, Naked(Held(s, w), s.clock, sent, ackArrives))
  }

  /** The daemon goes down with a message in hand: what it would have sent never arrives. */
  function AfterStop(s: State, w: nat): State {
    if !Holds(s, w) then s
    else Settled(s, w, Acked(Held(s, w), s.loops[w].stage == Accepted, false))
  }

  function Waited(s: State, wait: nat): State { s.(clock := s.clock + wait) }

  function Step(s: State, e: Event, c: Config): State {
    var u := Waited(s, e.wait);
    match e
    case Publish(_, p) => u.(msgs := u.msgs + [Msg(p, u.clock, false, 0, 0, 0, false)])
    case Fetch(_, w, i) => AfterFetch(u, w, i, c)
    case Handle(_, w, healthy) => AfterHandle(u, w, healthy, c)
    case Ack(_, w, arrives) => AfterAck(u, w, arrives, c)
    case Nak(_, w, sent, ackArrives) => AfterNak(u, w, sent, ackArrives)
    case Stop(_, w) => AfterStop(u, w)
  }

  function Run(events: seq<Event>, c: Config): State {
    if events == [] then Start else Step(Run(events[..|events| - 1], c), events[|events| - 1], c)
  }

  // ----- What holds without any reliability -----

  /** The loops that have accepted message i and not acknowledged it yet. */
  function InHand(loops: map<nat, Work>, i: nat): set<nat> {
    set w | w in loops && loops[w].msg == i && loops[w].stage == Accepted
  }

  /** Every acceptance is accounted for: its acknowledgement arrived, or never will, or is to come;
      and the message is gone exactly if one of them, or the one after a failed Nak, arrived. */
  ghost predicate Accounted(s: State, i: nat, c: Config)
    requires i < |s.msgs|
  {
    var m := s.msgs[i];
    && m.accepts == |InHand(s.loops, i)| + m.acked + m.lost
    && (m.gone && Addressed(m.payload, c.instance) <==> m.acked > 0 || m.dropped)
  }

  ghost predicate LoopsSound(s: State, c: Config) {
    forall w :: w in s.loops ==>
      Holds(s, w) && (s.loops[w].stage != Received ==> Addressed(Held(s, w).payload, c.instance))
  }

  ghost predicate Conserved(s: State, c: Config) {
    LoopsSound(s, c) && forall i: nat :: i < |s.msgs| ==> Accounted(s, i, c)
  }

  /** Sets that differ in one element at most. */
  lemma OneApart(a: set<nat>, b: set<nat>, w: nat)
    requires a - {w} == b - {w}
    ensures |b| + (if w in a then 1 else 0) == |a| + (if w in b then 1 else 0)
  {
    var rest := a - {w};
    assert w in a ==> a == rest + {w};
    assert w in b ==> b == rest + {w};
    assert w !in a ==> a == rest;
    assert w !in b ==> b == rest;
  }

  /** Only one loop leaves or joins those that have message i in hand. */
  lemma InHandChanges(before: map<nat, Work>, after: map<nat, Work>, w: nat, i: nat)
    requires forall v :: v != w ==> (v in before <==> v in after) && (v in before ==> before[v] == after[v])
    ensures |InHand(after, i)| + (if w in InHand(before, i) then 1 else 0)
         == |InHand(before, i)| + (if w in InHand(after, i) then 1 else 0)
  {
    var a, b := InHand(before, i), InHand(after, i);
    assert a - {w} == b - {w};
    OneApart(a, b, w);
  }

  lemma SettledAccounts(s: State, w: nat, m: Msg, i: nat, c: Config)
    requires Holds(s, w) && i < |s.msgs| && Accounted(s, i, c) && Accounted(s, s.loops[w].msg, c)
    requires var h, accepted := Held(s, w), s.loops[w].stage == Accepted;
      && m.payload == h.payload && m.accepts == h.accepts
      && m.acked + m.lost == h.acked + h.lost + (if accepted then 1 else 0)
      && (m.gone && Addressed(m.payload, c.instance) <==> m.acked > 0 || m.dropped)
    ensures Accounted(Settled(s, w, m), i, c)
  {
    InHandChanges(s.loops, Free(s.loops, w), w, i);
  }

  lemma FetchAccounts(s: State, w: nat, i: nat, c: Config, k: nat)
    requires k < |s.msgs| && Accounted(s, k, c)
    ensures Accounted(AfterFetch(s, w, i, c), k, c)
  {
    InHandChanges(s.loops, AfterFetch(s, w, i, c).loops, w, k);
  }

  lemma HandleAccounts(s: State, w: nat, healthy: bool, c: Config, k: nat)
    requires k < |s.msgs| && Accounted(s, k, c)
    ensures Accounted(AfterHandle(s, w, healthy, c), k, c)
  {
    InHandChanges(s.loops, AfterHandle(s, w, healthy, c).loops, w, k);
  }

  lemma StepAccounts(s: State, e: Event, c: Config, i: nat)
    requires Conserved(s, c) && i < |Step(s, e, c).msgs|
    ensures Accounted(Step(s, e, c), i, c)
  {
    var u := Waited(s, e.wait);
    assert forall k: nat :: k < |s.msgs| && Accounted(s, k, c) ==> Accounted(u, k, c);
    match e
    case Publish(_, p) => PublishAccounts(s, e, c, i);
    case Fetch(_, w, k) => FetchAccounts(u, w, k, c, i);
    case Handle(_, w, healthy) => HandleAccounts(u, w, healthy, c, i);
    case Ack(_, w, arrives) =>
      if AfterAck(u, w, arrives, c) != u {
        SettledAccounts(u, w, Acked(Held(u, w), u.loops[w].stage == Accepted, arrives), i, c);
      }
    case Nak(_, w, sent, ackArrives) =>
      if AfterNak(u, w, sent, ackArrives) != u {
        SettledAccounts(u, w, Naked(Held(u, w), u.clock, sent, ackArrives), i, c);
      }
    case Stop(_, w) =>
      if AfterStop(u, w) != u {
        SettledAccounts(u, w, Acked(Held(u, w), u.loops[w].stage == Accepted, false), i, c);
      }
  }

  lemma PublishAccounts(s: State, e: Event, c: Config, i: nat)
    requires Conserved(s, c) && e.Publish? && i <= |s.msgs|
    ensures Accounted(Step(s, e, c), i, c)
  {
    if i < |s.msgs| {
      assert Accounted(s, i, c);
    } else {
      assert forall w :: w in s.loops ==> Holds(s, w);
      assert InHand(s.loops, i) == {};
    }
  }

  lemma StepConserves(s: State, e: Event, c: Config)
    requires Conserved(s, c)
    ensures Conserved(Step(s, e, c), c)
  {
    forall i: nat | i < |Step(s, e, c).msgs|
      ensures Accounted(Step(s, e, c), i, c)
    {
      StepAccounts(s, e, c, i);
    }
  }

  /** Whatever is late or lost, and however many loops hold a message at once. */
  lemma {:induction false} Conservation(events: seq<Event>, c: Config)
    ensures Conserved(Run(events, c), c)
  {
    if events != [] {
      Conservation(events[..|events| - 1], c);
      StepConserves(Run(events[..|events| - 1], c), events[|events| - 1], c);
    }
  }

  /** How often a task for this daemon was started that is gone from the stream. */
  lemma StartsOfDeparted(events: seq<Event>, c: Config, i: nat)
    requires i < |Run(events, c).msgs| && Run(events, c).msgs[i].gone
    requires Addressed(Run(events, c).msgs[i].payload, c.instance)
    ensures var s := Run(events, c);
      var m, ending := s.msgs[i], s.msgs[i].lost + |InHand(s.loops, i)|;
      && (m.accepts == 0 <==> m.acked == 0 && ending == 0)
      && (m.acked == 0 ==> m.dropped)
      && (m.accepts > 1 <==> m.acked + ending > 1)
  {
    Conservation(events, c);
    assert Accounted(Run(events, c), i, c);
  }

  // ----- Reliable settlements -----

  /** Whenever something happens, every delivery under way is still within AckWait; settlements
      reach the server, and no daemon stops with a message in hand. */
  ghost predicate Timely(s: State, e: Event) {
    && (forall w :: w in s.loops ==> s.clock + e.wait < s.loops[w].deadline)
    && (e.Ack? ==> e.arrives) && (e.Nak? ==> e.sent) && !e.Stop?
  }

  ghost predicate Reliable(events: seq<Event>, c: Config) {
    events == [] ||
    (Reliable(events[..|events| - 1], c) && Timely(Run(events[..|events| - 1], c), events[|events| - 1]))
  }

  /** A message in hand is in the stream, and not due before the delivery runs out. */
  ghost predicate HeldSafely(s: State, w: nat)
    requires w in s.loops
  {
    Holds(s, w) && !Held(s, w).gone && Held(s, w).dueAt == s.loops[w].deadline
  }

  /** No two loops hold the same message. */
  ghost predicate HeldOnce(s: State) {
    && (forall w :: w in s.loops ==> HeldSafely(s, w))
    && (forall v, w :: v in s.loops && w in s.loops && v != w ==> s.loops[v].msg != s.loops[w].msg)
  }

  /** Nothing was lost or dropped, and a task is acknowledged once. */
  ghost predicate Orderly(s: State, i: nat)
    requires i < |s.msgs|
  {
    s.msgs[i].lost == 0 && !s.msgs[i].dropped && s.msgs[i].acked <= 1
  }

  lemma FetchHoldsOnce(s: State, w: nat, i: nat, c: Config)
    requires HeldOnce(s) && forall v :: v in s.loops ==> s.clock < s.loops[v].deadline
    ensures HeldOnce(AfterFetch(s, w, i, c))
  {
    var t := AfterFetch(s, w, i, c);
    forall v | v in t.loops ensures HeldSafely(t, v) {
      assert v in s.loops ==> HeldSafely(s, v);
    }
    assert forall v :: v in s.loops ==> HeldSafely(s, v);
  }

  lemma HandleHoldsOnce(s: State, w: nat, healthy: bool, c: Config)
    requires HeldOnce(s)
    ensures HeldOnce(AfterHandle(s, w, healthy, c))
  {
    var t := AfterHandle(s, w, healthy, c);
    forall v | v in t.loops ensures HeldSafely(t, v) {
      assert HeldSafely(s, v);
    }
  }

  lemma SettlingHoldsOnce(s: State, w: nat, m: Msg)
    requires HeldOnce(s) && Holds(s, w)
    ensures HeldOnce(Settled(s, w, m))
  {
    var t := Settled(s, w, m);
    forall v | v in t.loops ensures HeldSafely(t, v) {
      assert HeldSafely(s, v);
    }
  }

  lemma TimelyStepHoldsOnce(s: State, e: Event, c: Config)
    requires HeldOnce(s) && Timely(s, e)
    ensures HeldOnce(Step(s, e, c))
  {
    var u := Waited(s, e.wait);
    assert forall w :: w in s.loops && HeldSafely(s, w) ==> HeldSafely(u, w);
    match e
    case Publish(_, _) => PublishHoldsOnce(s, e, c);
    case Fetch(_, w, i) => FetchHoldsOnce(u, w, i, c);
    case Handle(_, w, healthy) => HandleHoldsOnce(u, w, healthy, c);
    case Ack(_, w, arrives) =>
      if AfterAck(u, w, arrives, c) != u {
        SettlingHoldsOnce(u, w, Acked(Held(u, w), u.loops[w].stage == Accepted, arrives));
      }
    case Nak(_, w, sent, ackArrives) =>
      if AfterNak(u, w, sent, ackArrives) != u {
        SettlingHoldsOnce(u, w, Naked(Held(u, w), u.clock, sent, ackArrives));
      }
  }

  lemma PublishHoldsOnce(s: State, e: Event, c: Config)
    requires HeldOnce(s) && e.Publish?
    ensures HeldOnce(Step(s, e, c))
  {
    var t := Step(s, e, c);
    forall v | v in t.loops ensures HeldSafely(t, v) {
      assert HeldSafely(s, v);
    }
  }

  lemma TimelyStepIsOrderly(s: State, e: Event, c: Config, i: nat)
    requires HeldOnce(s) && Timely(s, e) && Conserved(s, c) && i < |Step(s, e, c).msgs|
    requires i < |s.msgs| ==> Orderly(s, i)
    ensures Orderly(Step(s, e, c), i)
  {
    if i < |s.msgs| && e.Ack? && e.worker in s.loops && s.loops[e.worker].msg == i {
      assert HeldSafely(s, e.worker) && Accounted(s, i, c);
      assert Holds(s, e.worker);
    }
  }

  lemma {:induction false} ReliableHoldsOnce(events: seq<Event>, c: Config)
    requires Reliable(events, c)
    ensures HeldOnce(Run(events, c))
    ensures forall i: nat :: i < |Run(events, c).msgs| ==> Orderly(Run(events, c), i)
  {
    if events != [] {
      var s, e := Run(events[..|events| - 1], c), events[|events| - 1];
      ReliableHoldsOnce(events[..|events| - 1], c);
      Conservation(events[..|events| - 1], c);
      TimelyStepHoldsOnce(s, e, c);
      forall i: nat | i < |Run(events, c).msgs|
        ensures Orderly(Run(events, c), i)
      {
        TimelyStepIsOrderly(s, e, c, i);
      }
    }
  }

  /**
   If every settlement comes before its delivery runs out, a message for this daemon has been accepted
   at most once, and exactly once if and only if it is gone or about to be acknowledged: what has not
   been started is still in the stream.
   */
  lemma ExactlyOnce(events: seq<Event>, c: Config, i: nat)
    requires Reliable(events, c) && i < |Run(events, c).msgs|
    requires Addressed(Run(events, c).msgs[i].payload, c.instance)
    ensures var s := Run(events, c);
      && s.msgs[i].accepts <= 1
      && (s.msgs[i].accepts == 1 <==> s.msgs[i].gone || InHand(s.loops, i) != {})
  {
    Conservation(events, c);
    ReliableHoldsOnce(events, c);
    var s := Run(events, c);
    assert Accounted(s, i, c) && Orderly(s, i);
    AtMostOneHand(s, i);
  }

  lemma AtMostOneHand(s: State, i: nat)
    requires HeldOnce(s) && i < |s.msgs|
    ensures |InHand(s.loops, i)| <= 1 && (InHand(s.loops, i) != {} ==> !s.msgs[i].gone)
  {
    if InHand(s.loops, i) != {} {
      var w :| w in InHand(s.loops, i);
      assert InHand(s.loops, i) == {w};
      assert HeldSafely(s, w);
    }
  }

  // ----- What goes wrong otherwise -----

  /** A task that is in the stream, in somebody's hand or not, is started (again) by the next healthy
      loop that asks for it exactly if it is due, that is, if the delivery before has run out. */
  lemma StartedAgain(s: State, c: Config, i: nat, w: nat, wait: nat)
    requires i < |s.msgs| && !s.msgs[i].gone && Addressed(s.msgs[i].payload, c.instance) && w !in s.loops
    ensures var t := Step(Step(s, Fetch(wait, w, i), c), Handle(0, w, true), c);
      && t.msgs[i].accepts == s.msgs[i].accepts + (if s.msgs[i].dueAt <= s.clock + wait then 1 else 0)
      && (forall v :: v in s.loops ==> v in t.loops && t.loops[v] == s.loops[v])
      && (w in t.loops <==> s.msgs[i].dueAt <= s.clock + wait)
      && (w in t.loops ==> t.loops[w] == Work(i, Accepted, s.clock + wait + c.ackWait))
  {
  }

  lemma Snoc(events: seq<Event>, e: Event, c: Config)
    ensures Run(events + [e], c) == Step(Run(events, c), e, c)
  {
    assert (events + [e])[..|events|] == events;
  }

  const T := TaskFor("p", "j")

  predicate Ours(c: Config) { c.instance == "p" }

  /** A task that one loop has accepted at time 0. */
  lemma FirstStart(none: seq<Event>, c: Config) returns (events: seq<Event>)
    requires none == [] && Ours(c)
    ensures Run(events, c)
         == State(0, [Msg(T, c.ackWait, false, 1, 0, 0, false)], map[0 := Work(0, Accepted, c.ackWait)])
  {
    Snoc(none, Publish(0, T), c);
    var published := none + [Publish(0, T)];
    Snoc(published, Fetch(0, 0, 0), c);
    var fetched := published + [Fetch(0, 0, 0)];
    Snoc(fetched, Handle(0, 0, true), c);
    events := fetched + [Handle(0, 0, true)];
  }

  /** Once AckWait is over, a second loop accepts it as well. */
  lemma SecondStart(first: seq<Event>, c: Config, lost: nat, loops: map<nat, Work>) returns (events: seq<Event>)
    requires Ours(c) && 1 !in loops && Run(first, c) == State(0, [Msg(T, c.ackWait, false, 1, 0, lost, false)], loops)
    ensures Run(events, c) == State(c.ackWait, [Msg(T, 2 * c.ackWait, false, 2, 0, lost, false)],
                                    loops[1 := Work(0, Accepted, 2 * c.ackWait)])
  {
    Snoc(first, Fetch(c.ackWait, 1, 0), c);
    var fetched := first + [Fetch(c.ackWait, 1, 0)];
    Snoc(fetched, Handle(0, 1, true), c);
    events := fetched + [Handle(0, 1, true)];
  }

  lemma OneAck(before: seq<Event>, c: Config, w: nat, arrives: bool) returns (events: seq<Event>)
    requires var s := Run(before, c); Holds(s, w) && s.loops[w].stage == Accepted
    ensures Run(events, c) == Settled(Run(before, c), w, Acked(Held(Run(before, c), w), true, arrives))
  {
    Snoc(before, Ack(0, w, arrives), c);
    events := before + [Ack(0, w, arrives)];
  }

  /** A loop that is still at work when AckWait is over: another one starts the task a second time,
      and both acknowledgements arrive. */
  lemma LateAckStartsTwice(c: Config)
    requires Ours(c)
    ensures exists events: seq<Event> :: Run(events, c).msgs == [Msg(T, 2 * c.ackWait, true, 2, 2, 0, false)]
  {
    var e0 := FirstStart([], c);
    var e1 := SecondStart(e0, c, 0, map[0 := Work(0, Accepted, c.ackWait)]);
    var e2 := OneAck(e1, c, 0, true);
    var e3 := OneAck(e2, c, 1, true);
    assert Run(e3, c).msgs == [Msg(T, 2 * c.ackWait, true, 2, 2, 0, false)];
  }

  /** An acknowledgement that never arrives does the same. */
  lemma LostAckStartsTwice(c: Config)
    requires Ours(c)
    ensures exists events: seq<Event> :: Run(events, c).msgs == [Msg(T, 2 * c.ackWait, true, 2, 1, 1, false)]
  {
    var e0 := FirstStart([], c);
    var e1 := OneAck(e0, c, 0, false);
    assert Run(e1, c).loops == map[];
    var e2 := SecondStart(e1, c, 1, map[]);
    var e3 := OneAck(e2, c, 1, true);
    assert Run(e3, c).msgs == [Msg(T, 2 * c.ackWait, true, 2, 1, 1, false)];
  }

  /** A Nak that cannot be sent is replaced by an Ack, and the task is lost without having been started. */
  lemma FailedNakLosesTask(c: Config)
    requires Ours(c)
    ensures exists events: seq<Event> :: Run(events, c).msgs == [Msg(T, c.ackWait, true, 0, 0, 0, true)]
  {
    var none: seq<Event> := [];
    Snoc(none, Publish(0, T), c);
    var e1 := none + [Publish(0, T)];
    Snoc(e1, Fetch(0, 0, 0), c);
    var e2 := e1 + [Fetch(0, 0, 0)];
    Snoc(e2, Handle(0, 0, false), c);
    var e3 := e2 + [Handle(0, 0, false)];
    Snoc(e3, Nak(0, 0, false, true), c);
    assert Run(e3 + [Nak(0, 0, false, true)], c).msgs == [Msg(T, c.ackWait, true, 0, 0, 0, true)];
  }

  // ----- One message through handleMessage -----

  /** What becomes of the settlement calls of one delivery. */
  datatype Network = Network(ackArrives: bool, nakSent: bool, fallbackArrives: bool)

  /** The message after handleMessage, whose settlement reaches the server at `now`. */
  function Handled(m: Msg, c: Config, now: int, healthy: bool, net: Network): Msg {
    if !Addressed(m.payload, c.instance) then Acked(m, false, net.ackArrives)
    else if healthy then Acked(m.(accepts := m.accepts + 1), true, net.ackArrives)
    else Naked(m, now, net.nakSent, net.fallbackArrives)
  }

  /** A poisoned message, or one for another instance, is acknowledged without being started; one of ours
      is started and acknowledged, or comes back in half a minute. An acknowledgement removes it for good;
      so does the one that replaces a Nak, and then the task is dropped. */
  lemma HandledEffect(m: Msg, c: Config, now: int, healthy: bool, net: Network)
    ensures var t := Handled(m, c, now, healthy, net);
      var ours := m.payload.TaskFor? && m.payload.provider == c.instance;
      var returned := ours && !healthy;
      var started := if ours && healthy then 1 else 0;
      && t.payload == m.payload && t.accepts == m.accepts + started
      && t.dueAt == (if returned && net.nakSent then now + 30 else m.dueAt)
      && t.acked == m.acked + (if net.ackArrives then started else 0)
      && t.lost == m.lost + (if net.ackArrives then 0 else started)
      && (t.gone <==> m.gone || if returned then !net.nakSent && net.fallbackArrives else net.ackArrives)
      && (t.dropped <==> m.dropped || (returned && !net.nakSent && net.fallbackArrives))
  {
  }

  class Client {
    const config: Config
    var clock: int
    var msgs: seq<Msg>

    constructor (config: Config)
      ensures this.config == config && msgs == [] && clock == 0
    {
      this.config := config;
      clock, msgs := 0, [];
    }

    /** `healthy` is whether the task handler takes it, `think` how long that and the settlement take. */
    method HandleMessage(i: nat, healthy: bool, think: nat, net: Network)
      requires i < |msgs|
      modifies this`clock, this`msgs
      ensures clock == old(clock) + think
      ensures msgs == old(msgs)[i := Handled(old(msgs[i]), config, clock, healthy, net)]
    {
      clock := clock + think;
      if msgs[i].payload.Poison? {
        SendAck(i, false, net.ackArrives);
        return;
      }
      if msgs[i].payload.provider != config.instance {
        SendAck(i, false, net.ackArrives);
        return;
      }
      if !healthy {
        if net.nakSent {
          msgs := msgs[i := msgs[i].(dueAt := clock + NAK_DELAY)];
        } else if net.fallbackArrives {
          msgs := msgs[i := msgs[i].(gone := true, dropped := true)];
        }
        return;
      }
      msgs := msgs[i := msgs[i].(accepts := msgs[i].accepts + 1)];
      SendAck(i, true, net.ackArrives);
    }

    method SendAck(i: nat, accepted: bool, arrives: bool)
      requires i < |msgs|
      modifies this`msgs
      ensures msgs == old(msgs)[i := Acked(old(msgs[i]), accepted, arrives)]
    {
      var count := if accepted then 1 else 0;
      if arrives {
        msgs := msgs[i := msgs[i].(gone := true, acked := msgs[i].acked + count)];
      } else {
        msgs := msgs[i := msgs[i].(lost := msgs[i].lost + count)];
      }
    }
  }

  /** handleMessage is the steps Handle and then Ack or Nak of the loop that holds the message. */
  lemma HandledIsSteps(s: State, w: nat, c: Config, healthy: bool, think: nat, net: Network)
    requires Holds(s, w) && s.loops[w].stage == Received
    ensures var i := s.loops[w].msg;
      var t := Step(Step(Step(s, Handle(0, w, healthy), c), Ack(think, w, net.ackArrives), c),
                    Nak(0, w, net.nakSent, net.fallbackArrives), c);
      && t.clock == s.clock + think && t.loops == Free(s.loops, w)
      && t.msgs == s.msgs[i := Handled(s.msgs[i], c, s.clock + think, healthy, net)]
  {
    var t1 := Step(s, Handle(0, w, healthy), c);
    var t2 := Step(t1, Ack(think, w, net.ackArrives), c);
    assert Free(t1.loops, w) == Free(s.loops, w);
    if t2.loops != t1.loops {
      assert w !in t2.loops;
    }
  }
}
