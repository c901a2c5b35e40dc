/** The locking protocol of the chat stream, one step per lock, ring, channel and subscribe
    operation, for any number of senders and attaching subscribers in any interleaving. */
module StreamProtocol {
  import opened Options
  import opened ChatEvents
  import opened Backlog

  type Thread = nat

  /** Where a thread stands inside `send` or `snapshot_and_subscribe`; a thread that is in
      neither call has no entry. */
  datatype Pc =
    | WaitingToSend(event: Event)
    | Storing(event: Event)        // lock held, ring not yet updated
    | Stored(event: Event)         // ring updated, not yet broadcast
    | WaitingToAttach
    | Copying                      // lock held, ring not yet copied
    | Copied(snapshot: seq<Event>) // ring copied, not yet subscribed
    | Done                         // lock still held
  {
    predicate Critical() {
      !WaitingToSend? && !WaitingToAttach?
    }
  }

  /** A subscriber: whether it came through `snapshot_and_subscribe`, what it copied there,
      where its receiver started, and how far it has read. */
  datatype Subscriber = Subscriber(replayed: bool, snapshot: seq<Event>, start: nat, next: nat)

  datatype State = State(
    cap: nat,
    lock: Option<Thread>,
    ring: seq<Event>,
    log: seq<Event>,
    pcs: map<Thread, Pc>,
    subs: seq<Subscriber>)

  datatype Step =
    | StartSend(t: Thread, event: Event)
    | StartAttach(t: Thread)
    | Acquire(t: Thread)
    | EvictFront(t: Thread)
    | PushBack(t: Thread)
    | Clear(t: Thread)
    | Broadcast(t: Thread)
    | CopyRing(t: Thread)
    | Subscribe(t: Thread)
    | Release(t: Thread)
    | SubscribeUnlocked
    | Deliver(sub: nat)

  function Init(cap: nat): State {
    State(cap, None, [], [], map[], [])
  }

  predicate At(s: State, t: Thread) {
    s.lock == Some(t) && t in s.pcs
  }

  predicate Enabled(s: State, step: Step) {
    match step
    case StartSend(t, _) => t !in s.pcs
    case StartAttach(t) => t !in s.pcs
    case Acquire(t) => s.lock == None && t in s.pcs && !s.pcs[t].Critical()
    case EvictFront(t) => At(s, t) && s.pcs[t].Storing? && !s.pcs[t].event.Terminal() && |s.ring| >= s.cap
    case PushBack(t) => At(s, t) && s.pcs[t].Storing? && !s.pcs[t].event.Terminal() && |s.ring| < s.cap
    case Clear(t) => At(s, t) && s.pcs[t].Storing? && s.pcs[t].event.Terminal()
    case Broadcast(t) => At(s, t) && s.pcs[t].Stored?
    case CopyRing(t) => At(s, t) && s.pcs[t].Copying?
    case Subscribe(t) => At(s, t) && s.pcs[t].Copied?
    case Release(t) => At(s, t) && s.pcs[t].Done?
    case SubscribeUnlocked => true
    case Deliver(i) => i < |s.subs| && s.subs[i].next < |s.log|
  }

  function Do(s: State, step: Step): State
    requires Enabled(s, step)
  {
    match step
    case StartSend(t, e) => s.(pcs := s.pcs[t := WaitingToSend(e)])
    case StartAttach(t) => s.(pcs := s.pcs[t := WaitingToAttach])
    case Acquire(t) =>
      var pc := if s.pcs[t].WaitingToSend? then Storing(s.pcs[t].event) else Copying;
      s.(lock := Some(t), pcs := s.pcs[t := pc])
    case EvictFront(_) => s.(ring := if s.ring == [] then [] else s.ring[1..])
    case PushBack(t) =>
      s.(ring := s.ring + [s.pcs[t].event], pcs := s.pcs[t := Stored(s.pcs[t].event)])
    case Clear(t) => s.(ring := [], pcs := s.pcs[t := Stored(s.pcs[t].event)])
    case Broadcast(t) => s.(log := s.log + [s.pcs[t].event], pcs := s.pcs[t := Done])
    case CopyRing(t) => s.(pcs := s.pcs[t := Copied(s.ring)])
    case Subscribe(t) =>
      s.(subs := s.subs + [Subscriber(true, s.pcs[t].snapshot, |s.log|, |s.log|)], pcs := s.pcs[t := Done])
    case Release(t) => s.(lock := None, pcs := s.pcs - {t})
    case SubscribeUnlocked => s.(subs := s.subs + [Subscriber(false, [], |s.log|, |s.log|)])
    case Deliver(i) => s.(subs := s.subs[i := s.subs[i].(next := s.subs[i].next + 1)])
  }

  /** `steps` can be taken from `s`, one after the other. */
  predicate Runs(s: State, steps: seq<Step>)
    decreases |steps|
  {
    steps == [] || (Enabled(s, steps[0]) && Runs(Do(s, steps[0]), steps[1..]))
  }

  function After(s: State, steps: seq<Step>): State
    requires Runs(s, steps)
    decreases |steps|
  {
    if steps == [] then s else After(Do(s, steps[0]), steps[1..])
  }

  // ---------------------------------------------------------------------------------------
  // The invariant

  /** How the ring relates to the log while the lock is at `pc`. */
  ghost predicate RingAt(pc: Pc, ring: seq<Event>, log: seq<Event>, cap: nat) {
    match pc
    case Storing(e) =>
      && |ring| <= cap
      && ring == LastN(CurrentTurn(log), |ring|)
      && (|ring| >= cap - 1 || ring == CurrentTurn(log))
    case Stored(e) => ring == Window(log + [e], cap)
    case Copied(snapshot) => snapshot == ring == Window(log, cap)
    case _ => ring == Window(log, cap)
  }

  /** Only the holder of the lock is inside a critical section. */
  ghost predicate Exclusive(s: State) {
    && (forall t :: t in s.pcs && s.pcs[t].Critical() ==> s.lock == Some(t))
    && (s.lock.Some? ==> s.lock.value in s.pcs && s.pcs[s.lock.value].Critical())
  }

  ghost predicate LockInv(s: State) {
    && Exclusive(s)
    && (s.lock.Some? ==> RingAt(s.pcs[s.lock.value], s.ring, s.log, s.cap))
    && (s.lock.None? ==> s.ring == Window(s.log, s.cap))
  }

  /** The snapshot is exactly the stretch of the log just before the receiver's start. */
  ghost predicate SubscriberInv(sub: Subscriber, log: seq<Event>, cap: nat) {
    && |sub.snapshot| <= sub.start <= sub.next <= |log|
    && sub.snapshot == log[sub.start - |sub.snapshot|..sub.start]
    && sub.snapshot == (if sub.replayed then Window(log[..sub.start], cap) else [])
  }

  ghost predicate AllSubscribersOk(subs: seq<Subscriber>, log: seq<Event>, cap: nat) {
    forall i :: 0 <= i < |subs| ==> SubscriberInv(subs[i], log, cap)
  }

  ghost predicate Inv(s: State) {
    && s.cap >= 1
    && LockInv(s)
    && AllSubscribersOk(s.subs, s.log, s.cap)
  }

  /** Appending to the log leaves every subscriber's past as it was. */
  lemma {:induction false} SubscriberStable(sub: Subscriber, log: seq<Event>, cap: nat, e: Event)
    requires SubscriberInv(sub, log, cap)
    ensures SubscriberInv(sub, log + [e], cap)
  {
    assert (log + [e])[..sub.start] == log[..sub.start];
    assert (log + [e])[sub.start - |sub.snapshot|..sub.start] == log[sub.start - |sub.snapshot|..sub.start];
  }

  /** A subscriber that copied the window under the lock starts out in order. */
  lemma {:induction false} FreshSubscriber(log: seq<Event>, cap: nat)
    ensures SubscriberInv(Subscriber(true, Window(log, cap), |log|, |log|), log, cap)
    ensures SubscriberInv(Subscriber(false, [], |log|, |log|), log, cap)
  {
    assert log[..|log|] == log;
    var turn := CurrentTurn(log);
    assert log[|log| - |turn|..] == turn;
  }

  /** Storing under the lock prepares the window of the log with the event already in it. */
  lemma {:induction false} StorePreparesWindow(log: seq<Event>, ring: seq<Event>, e: Event, cap: nat)
    requires cap >= 1
    requires RingAt(Storing(e), ring, log, cap)
    ensures e.Terminal() ==> Window(log + [e], cap) == []
    ensures !e.Terminal() && |ring| < cap ==> ring + [e] == Window(log + [e], cap)
    ensures |ring| >= cap ==> RingAt(Storing(e), ring[1..], log, cap)
  {
    WindowStep(log, e, cap);
    if |ring| < cap {
      AppendFits(CurrentTurn(log), |ring|, e, cap);
    } else {
      LastNDropsFirst(CurrentTurn(log), cap);
    }
  }

  lemma {:induction false} AppendFits(turn: seq<Event>, n: nat, e: Event, cap: nat)
    requires n < cap && (n >= cap - 1 || n == |turn|) && n <= |turn|
    ensures LastN(turn, n) + [e] == LastN(LastN(turn, cap) + [e], cap)
  {
    LastNSnoc(turn, e, cap);
  }

  lemma {:induction false} LastNDropsFirst(turn: seq<Event>, n: nat)
    requires 1 <= n <= |turn|
    ensures LastN(turn, n)[1..] == LastN(turn, n - 1)
  {
  }

  /** The holder moves on inside its critical section. */
  lemma {:induction false} HolderMoves(s: State, t: Thread, pc: Pc, ring: seq<Event>, log: seq<Event>)
    requires LockInv(s) && At(s, t) && pc.Critical() && RingAt(pc, ring, log, s.cap)
    ensures LockInv(s.(pcs := s.pcs[t := pc], ring := ring, log := log))
  {
    var s' := s.(pcs := s.pcs[t := pc], ring := ring, log := log);
    forall u | u in s'.pcs && s'.pcs[u].Critical() ensures s'.lock == Some(u) {
      assert u == t || s.pcs[u].Critical();
    }
  }

  lemma {:induction false} StoreStepKeepsLockInv(s: State, step: Step)
    requires s.cap >= 1 && LockInv(s) && Enabled(s, step)
    requires step.EvictFront? || step.PushBack? || step.Clear?
    ensures LockInv(Do(s, step))
  {
    var t := step.t;
    var s' := Do(s, step);
    StorePreparesWindow(s.log, s.ring, s.pcs[t].event, s.cap);
    HolderMoves(s, t, s'.pcs[t], s'.ring, s.log);
    assert s'.pcs == s.pcs[t := s'.pcs[t]];
  }

  lemma {:induction false} MoveStepKeepsLockInv(s: State, step: Step)
    requires LockInv(s) && Enabled(s, step)
    requires step.Broadcast? || step.CopyRing? || step.Subscribe?
    ensures LockInv(Do(s, step))
  {
    var t := step.t;
    var s' := Do(s, step);
    HolderMoves(s, t, s'.pcs[t], s.ring, s'.log);
    assert LockInv(s'.(subs := s.subs));
  }

  lemma {:induction false} StartStepKeepsLockInv(s: State, t: Thread, pc: Pc)
    requires LockInv(s) && t !in s.pcs && !pc.Critical()
    ensures LockInv(s.(pcs := s.pcs[t := pc]))
  {
    var pcs := s.pcs[t := pc];
    forall u | u in pcs && pcs[u].Critical() ensures s.lock == Some(u) {
      assert s.pcs[u].Critical();
    }
  }

  /** A free lock's ring is what the next holder starts from. */
  lemma {:induction false} AcquireStepKeepsLockInv(s: State, t: Thread)
    requires s.cap >= 1 && LockInv(s) && Enabled(s, Acquire(t))
    ensures LockInv(Do(s, Acquire(t)))
  {
    forall u | u in s.pcs ensures !s.pcs[u].Critical() {
    }
  }

  lemma {:induction false} ReleaseStepKeepsLockInv(s: State, t: Thread)
    requires LockInv(s) && Enabled(s, Release(t))
    ensures LockInv(Do(s, Release(t)))
  {
    var pcs := s.pcs - {t};
    forall u | u in pcs ensures !pcs[u].Critical() {
      assert s.pcs[u].Critical() ==> s.lock == Some(u);
    }
  }

  lemma {:induction false} StepKeepsLockInv(s: State, step: Step)
    requires s.cap >= 1 && LockInv(s) && Enabled(s, step)
    ensures LockInv(Do(s, step))
  {
    match step
    case EvictFront(_) => StoreStepKeepsLockInv(s, step);
    case PushBack(_) => StoreStepKeepsLockInv(s, step);
    case Clear(_) => StoreStepKeepsLockInv(s, step);
    case Broadcast(_) => MoveStepKeepsLockInv(s, step);
    case CopyRing(_) => MoveStepKeepsLockInv(s, step);
    case Subscribe(_) => MoveStepKeepsLockInv(s, step);
    case SubscribeUnlocked =>
    case Deliver(_) =>
    case StartSend(t, e) => StartStepKeepsLockInv(s, t, WaitingToSend(e));
    case StartAttach(t) => StartStepKeepsLockInv(s, t, WaitingToAttach);
    case Acquire(t) => AcquireStepKeepsLockInv(s, t);
    case Release(t) => ReleaseStepKeepsLockInv(s, t);
  }

  lemma {:induction false} NewcomerJoins(subs: seq<Subscriber>, replayed: bool, log: seq<Event>, cap: nat)
    requires AllSubscribersOk(subs, log, cap)
    ensures var snapshot := if replayed then Window(log, cap) else [];
            AllSubscribersOk(subs + [Subscriber(replayed, snapshot, |log|, |log|)], log, cap)
  {
    FreshSubscriber(log, cap);
  }

  lemma {:induction false} Published(subs: seq<Subscriber>, log: seq<Event>, cap: nat, e: Event)
    requires AllSubscribersOk(subs, log, cap)
    ensures AllSubscribersOk(subs, log + [e], cap)
  {
    forall i | 0 <= i < |subs| ensures SubscriberInv(subs[i], log + [e], cap) {
      SubscriberStable(subs[i], log, cap, e);
    }
  }

  lemma {:induction false} Delivered(subs: seq<Subscriber>, log: seq<Event>, cap: nat, i: nat)
    requires AllSubscribersOk(subs, log, cap) && i < |subs| && subs[i].next < |log|
    ensures AllSubscribersOk(subs[i := subs[i].(next := subs[i].next + 1)], log, cap)
  {
    assert SubscriberInv(subs[i], log, cap);
  }

  lemma {:induction false} StepKeepsSubscribers(s: State, step: Step)
    requires AllSubscribersOk(s.subs, s.log, s.cap) && Enabled(s, step)
    requires step.Subscribe? ==> s.pcs[step.t].snapshot == Window(s.log, s.cap)
    ensures AllSubscribersOk(Do(s, step).subs, Do(s, step).log, s.cap)
  {
    match step {
      case Broadcast(t) =>
        Published(s.subs, s.log, s.cap, s.pcs[t].event);
      case Subscribe(_) =>
        NewcomerJoins(s.subs, true, s.log, s.cap);
      case SubscribeUnlocked =>
        NewcomerJoins(s.subs, false, s.log, s.cap);
      case Deliver(i) =>
        Delivered(s.subs, s.log, s.cap, i);
      case _ =>
    }
  }

  lemma {:induction false} StepKeepsInv(s: State, step: Step)
    requires Inv(s) && Enabled(s, step)
    ensures Inv(Do(s, step)) && Do(s, step).cap == s.cap
  {
    StepKeepsLockInv(s, step);
    StepKeepsSubscribers(s, step);
  }

  lemma {:induction false} InitInv(cap: nat)
    requires cap >= 1
    ensures Inv(Init(cap))
  {
  }

  lemma {:induction false} RunKeepsInv(s: State, steps: seq<Step>)
    requires Inv(s) && Runs(s, steps)
    ensures Inv(After(s, steps)) && After(s, steps).cap == s.cap
    decreases |steps|
  {
    if steps != [] {
      StepKeepsInv(s, steps[0]);
      RunKeepsInv(Do(s, steps[0]), steps[1..]);
    }
  }

  // ---------------------------------------------------------------------------------------
  // What every run guarantees

  /** `s` occurs in some run from the empty stream. */
  ghost predicate Reachable(s: State) {
    exists start, steps :: start == Init(s.cap) && Runs(start, steps) && After(start, steps) == s
  }

  lemma {:induction false} ReachableInv(s: State)
    requires s.cap >= 1 && Reachable(s)
    ensures Inv(s)
  {
    var start, steps :| start == Init(s.cap) && Runs(start, steps) && After(start, steps) == s;
    assert Inv(start) by {
      InitInv(s.cap);
    }
    RunKeepsInv(start, steps);
  }

  /** Whenever the lock is free, the ring is the last `cap` events of the turn in flight. */
  lemma {:induction false} RingReplaysCurrentTurn(s: State)
    requires s.cap >= 1 && Reachable(s)
    ensures s.lock == None ==> s.ring == LastN(CurrentTurn(s.log), s.cap)
  {
    ReachableInv(s);
  }

  /** A finished turn is not replayed: whenever the lock is free and the last event published is a
      `Complete` or an `Error`, the ring is empty; after any other event it is not. */
  lemma {:induction false} FinishedTurnIsNotReplayed(s: State)
    requires s.cap >= 1 && Reachable(s) && s.lock == None && s.log != []
    ensures s.ring == [] <==> s.log[|s.log| - 1].Complete? || s.log[|s.log| - 1].Error?
  {
    ReachableInv(s);
    var init, e := s.log[..|s.log| - 1], s.log[|s.log| - 1];
    assert s.log == init + [e];
    TurnGrows(init, e);
  }

  /** What a subscriber has seen so far: its snapshot, then the delivered part of the log. */
  function Seen(log: seq<Event>, sub: Subscriber): seq<Event>
    requires sub.start <= sub.next <= |log|
  {
    sub.snapshot + log[sub.start..sub.next]
  }

  lemma {:induction false} StretchOf(sub: Subscriber, log: seq<Event>, cap: nat)
    requires SubscriberInv(sub, log, cap)
    ensures Seen(log, sub) == log[sub.start - |sub.snapshot|..sub.next]
  {
    var first := sub.start - |sub.snapshot|;
    assert log[first..sub.next] == log[first..sub.start] + log[sub.start..sub.next];
  }

  /** In every interleaving every subscriber sees one contiguous stretch of the log, up to its
      cursor: nothing missing between snapshot and live events, nothing delivered twice. */
  lemma {:induction false} SubscriberSeesOneStretch(s: State, sub: Subscriber)
    requires s.cap >= 1 && Reachable(s) && sub in s.subs
    ensures |sub.snapshot| <= sub.start <= sub.next <= |s.log|
    ensures Seen(s.log, sub) == s.log[sub.start - |sub.snapshot|..sub.next]
    ensures sub.next == |s.log| ==> Seen(s.log, sub) == s.log[sub.start - |sub.snapshot|..]
    ensures sub.snapshot == if sub.replayed then Window(s.log[..sub.start], s.cap) else []
  {
    ReachableInv(s);
    StretchOf(sub, s.log, s.cap);
  }

  // ---------------------------------------------------------------------------------------
  // Nothing sent is lost, repeated or reordered

  /** Who broadcast what, in order, during a run. */
  function Trace(s: State, steps: seq<Step>): seq<(Thread, Event)>
    requires Runs(s, steps)
    decreases |steps|
  {
    if steps == [] then []
    else
      (if steps[0].Broadcast? then [(steps[0].t, s.pcs[steps[0].t].event)] else [])
      + Trace(Do(s, steps[0]), steps[1..])
  }

  function Events(trace: seq<(Thread, Event)>): seq<Event> {
    seq(|trace|, i requires 0 <= i < |trace| => trace[i].1)
  }

  /** The events thread `t` broadcast. */
  function By(trace: seq<(Thread, Event)>, t: Thread): seq<Event> {
    if trace == [] then [] else (if trace[0].0 == t then [trace[0].1] else []) + By(trace[1..], t)
  }

  /** The events thread `t` was asked to send. */
  function Sent(steps: seq<Step>, t: Thread): seq<Event> {
    if steps == [] then []
    else (if steps[0].StartSend? && steps[0].t == t then [steps[0].event] else []) + Sent(steps[1..], t)
  }

  /** The event thread `t` is in the middle of sending. */
  function InFlight(s: State, t: Thread): seq<Event> {
    if t in s.pcs && (s.pcs[t].WaitingToSend? || s.pcs[t].Storing? || s.pcs[t].Stored?) then [s.pcs[t].event]
    else []
  }

  lemma {:induction false} LogIsTrace(s: State, steps: seq<Step>)
    requires Runs(s, steps)
    ensures After(s, steps).log == s.log + Events(Trace(s, steps))
    decreases |steps|
  {
    if steps != [] {
      LogIsTrace(Do(s, steps[0]), steps[1..]);
      var rest := Trace(Do(s, steps[0]), steps[1..]);
      if steps[0].Broadcast? {
        var p := (steps[0].t, s.pcs[steps[0].t].event);
        assert Events([p] + rest) == [p.1] + Events(rest);
      } else {
        assert [] + rest == rest;
      }
    }
  }

  lemma {:induction false} StepMovesOneEvent(s: State, step: Step, t: Thread)
    requires Enabled(s, step)
    ensures var sent := if step.StartSend? && step.t == t then [step.event] else [];
            var published := if step.Broadcast? && step.t == t then [s.pcs[t].event] else [];
            InFlight(s, t) + sent == published + InFlight(Do(s, step), t)
  {
  }

  lemma {:induction false} SentIsPublished(s: State, steps: seq<Step>, t: Thread)
    requires Runs(s, steps)
    ensures InFlight(s, t) + Sent(steps, t) == By(Trace(s, steps), t) + InFlight(After(s, steps), t)
    decreases |steps|
  {
    if steps != [] {
      var step, next, rest := steps[0], Do(s, steps[0]), steps[1..];
      var sent := if step.StartSend? && step.t == t then [step.event] else [];
      var published := if step.Broadcast? && step.t == t then [s.pcs[t].event] else [];
      calc {
        InFlight(s, t) + Sent(steps, t);
        InFlight(s, t) + (sent + Sent(rest, t));
        (InFlight(s, t) + sent) + Sent(rest, t);
        { StepMovesOneEvent(s, step, t); }
        (published + InFlight(next, t)) + Sent(rest, t);
        published + (InFlight(next, t) + Sent(rest, t));
        { SentIsPublished(next, rest, t); }
        published + (By(Trace(next, rest), t) + InFlight(After(s, steps), t));
        (published + By(Trace(next, rest), t)) + InFlight(After(s, steps), t);
        { TraceByUnfolds(s, steps, t); }
        By(Trace(s, steps), t) + InFlight(After(s, steps), t);
      }
    }
  }

  lemma {:induction false} TraceByUnfolds(s: State, steps: seq<Step>, t: Thread)
    requires steps != [] && Runs(s, steps)
    ensures var published := if steps[0].Broadcast? && steps[0].t == t then [s.pcs[t].event] else [];
            By(Trace(s, steps), t) == published + By(Trace(Do(s, steps[0]), steps[1..]), t)
  {
    var rest := Trace(Do(s, steps[0]), steps[1..]);
    if steps[0].Broadcast? {
      var p := (steps[0].t, s.pcs[steps[0].t].event);
      assert ([p] + rest)[1..] == rest;
    } else {
      assert [] + rest == rest;
    }
  }

  /** Over every run, the log is exactly the broadcasts of the threads, and each thread's sends
      reach it once each and in order, save for one send that may still be in flight. */
  lemma {:induction false} EverySendIsLoggedOnce(cap: nat, steps: seq<Step>, t: Thread)
    requires Runs(Init(cap), steps)
    ensures After(Init(cap), steps).log == Events(Trace(Init(cap), steps))
    ensures Sent(steps, t) == By(Trace(Init(cap), steps), t) + InFlight(After(Init(cap), steps), t)
  {
    LogIsTrace(Init(cap), steps);
    SentIsPublished(Init(cap), steps, t);
  }

  // ---------------------------------------------------------------------------------------
  // The lock is always given back, unless the ring has no room

  /** The holder of the lock can always finish on its own, in at most four steps, and a sender
      that does so has published exactly its event. */
  lemma {:induction false} HolderCanFinish(s: State) returns (steps: seq<Step>)
    requires Inv(s) && s.lock.Some?
    ensures |steps| <= 4 && Runs(s, steps) && After(s, steps).lock == None
    ensures s.pcs[s.lock.value].Storing? ==>
              After(s, steps).log == s.log + [s.pcs[s.lock.value].event]
  {
    var t := s.lock.value;
    match s.pcs[t] {
      case Storing(_) =>
        steps := SenderCanFinish(s, t);
      case Stored(e) =>
        steps := [Broadcast(t), Release(t)];
        RunTwo(s, steps, t);
      case Copying =>
        steps := [CopyRing(t), Subscribe(t), Release(t)];
        RunThree(s, steps, t);
      case Copied(_) =>
        steps := [Subscribe(t), Release(t)];
        RunTwo(s, steps, t);
      case Done =>
        steps := [Release(t)];
        RunOne(s, t);
    }
  }

  lemma {:induction false} SenderCanFinish(s: State, t: Thread) returns (steps: seq<Step>)
    requires Inv(s) && At(s, t) && s.pcs[t].Storing?
    ensures |steps| <= 4 && Runs(s, steps) && After(s, steps).lock == None
    ensures After(s, steps).log == s.log + [s.pcs[t].event]
  {
    if s.pcs[t].event.Terminal() {
      steps := [Clear(t), Broadcast(t), Release(t)];
      RunThree(s, steps, t);
    } else if |s.ring| < s.cap {
      steps := [PushBack(t), Broadcast(t), Release(t)];
      RunThree(s, steps, t);
    } else {
      var rest := [PushBack(t), Broadcast(t), Release(t)];
      steps := [EvictFront(t)] + rest;
      assert steps[1..] == rest;
      RunThree(Do(s, EvictFront(t)), rest, t);
    }
  }

  lemma {:induction false} RunOne(s: State, t: Thread)
    requires Enabled(s, Release(t))
    ensures Runs(s, [Release(t)]) && After(s, [Release(t)]) == Do(s, Release(t))
  {
    assert [Release(t)][1..] == [];
    assert Runs(Do(s, Release(t)), []);
  }

  lemma {:induction false} RunTwo(s: State, steps: seq<Step>, t: Thread)
    requires |steps| == 2 && steps[1] == Release(t) && Enabled(s, steps[0])
    requires Enabled(Do(s, steps[0]), steps[1])
    ensures Runs(s, steps) && After(s, steps) == Do(Do(s, steps[0]), steps[1])
  {
    assert steps[1..] == [Release(t)];
    RunOne(Do(s, steps[0]), t);
  }

  lemma {:induction false} RunThree(s: State, steps: seq<Step>, t: Thread)
    requires |steps| == 3 && steps[2] == Release(t) && Enabled(s, steps[0])
    requires Enabled(Do(s, steps[0]), steps[1])
    requires Enabled(Do(Do(s, steps[0]), steps[1]), steps[2])
    ensures Runs(s, steps) && After(s, steps) == Do(Do(Do(s, steps[0]), steps[1]), steps[2])
  {
    RunTwo(Do(s, steps[0]), steps[1..], t);
  }

  lemma {:induction false} StepKeepsExclusive(s: State, step: Step)
    requires Exclusive(s) && Enabled(s, step)
    ensures Exclusive(Do(s, step)) && Do(s, step).cap == s.cap
  {
  }

  lemma {:induction false} RunKeepsExclusive(s: State, steps: seq<Step>)
    requires Exclusive(s) && Runs(s, steps)
    ensures Exclusive(After(s, steps))
    decreases |steps|
  {
    if steps != [] {
      StepKeepsExclusive(s, steps[0]);
      RunKeepsExclusive(Do(s, steps[0]), steps[1..]);
    }
  }

  /** Mutual exclusion in every reachable state, whatever the capacity. */
  lemma {:induction false} MutualExclusion(s: State, t: Thread, u: Thread)
    requires Reachable(s) && t in s.pcs && u in s.pcs
    ensures s.pcs[t].Critical() && s.pcs[u].Critical() ==> t == u && s.lock == Some(t)
  {
    var start, steps :| start == Init(s.cap) && Runs(start, steps) && After(start, steps) == s;
    assert Exclusive(start);
    RunKeepsExclusive(start, steps);
  }

  /** With a ring of size zero the eviction loop never ends: once a sender holding a
      non-terminal event has the lock, it keeps it and nothing is ever broadcast again. */
  lemma {:induction false} ZeroCapacityWedges(s: State, steps: seq<Step>, t: Thread)
    requires s.cap == 0 && Reachable(s) && At(s, t) && s.pcs[t].Storing? && !s.pcs[t].event.Terminal()
    requires Runs(s, steps)
    ensures var s' := After(s, steps);
            At(s', t) && s'.pcs[t] == s.pcs[t] && s'.log == s.log
  {
    var start, before :| start == Init(s.cap) && Runs(start, before) && After(start, before) == s;
    assert Exclusive(start);
    RunKeepsExclusive(start, before);
    StaysWedged(s, steps, t);
  }

  lemma {:induction false} StaysWedged(s: State, steps: seq<Step>, t: Thread)
    requires s.cap == 0 && Exclusive(s) && At(s, t) && s.pcs[t].Storing? && !s.pcs[t].event.Terminal()
    requires Runs(s, steps)
    ensures var s' := After(s, steps);
            At(s', t) && s'.pcs[t] == s.pcs[t] && s'.log == s.log
    decreases |steps|
  {
    if steps != [] {
      StepKeepsExclusive(s, steps[0]);
      StaysWedged(Do(s, steps[0]), steps[1..], t);
    }
  }
}
