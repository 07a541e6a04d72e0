/**
 The fail-closed event bus. `EventBus` is the object whose fields the source updates; its methods are
 the stretches of code between two suspension points. Above it, publishers and shutdowns are tasks that
 take turns on the publish lock, with arbitrary outcomes of persistence and of every handler.
 */
module EventBuses {
  import opened Std

  datatype Event = Event(id: nat, eventType: string)

  datatype Bus = Bus(subscribers: map<string, seq<nat>>, wildcard: seq<nat>, log: seq<Event>, closed: bool)

  /** `list.remove`: the first occurrence goes. */
  function RemoveFirst(s: seq<nat>, x: nat): (r: seq<nat>)
    ensures x in s ==> multiset(r) == multiset(s) - multiset{x}
    ensures x !in s ==> r == s
  {
    if s == [] then []
    else
      var rest := s[1..];
      assert s == [s[0]] + rest && multiset(s) == multiset{s[0]} + multiset(rest);
      if s[0] == x then rest else [s[0]] + RemoveFirst(rest, x)
  }

  function OfType(b: Bus, eventType: string): seq<nat> {
    if eventType in b.subscribers then b.subscribers[eventType] else []
  }

  /** Everyone an event of this type goes to, in the order the source builds the tuple. */
  function Handlers(b: Bus, eventType: string): seq<nat> { OfType(b, eventType) + b.wildcard }

  function Quarantined(b: Bus, eventType: string, h: nat): Bus {
    b.(subscribers := if eventType in b.subscribers
                      then b.subscribers[eventType := RemoveFirst(b.subscribers[eventType], h)] else b.subscribers,
       wildcard := RemoveFirst(b.wildcard, h))
  }

  function ShutDown(b: Bus): Bus { b.(subscribers := map[], wildcard := [], closed := true) }

  class EventBus {
    const maxLogSize: nat
    var subscribers: map<string, seq<nat>>
    var wildcard: seq<nat>
    var eventLog: seq<Event>
    var closed: bool

    ghost function View(): Bus reads this { Bus(subscribers, wildcard, eventLog, closed) }

    ghost predicate Valid() reads this { |eventLog| <= maxLogSize && maxLogSize > 0 }

    constructor (maxLogSize: nat)
      requires maxLogSize > 0
      ensures Valid() && View() == Bus(map[], [], [], false) && this.maxLogSize == maxLogSize
    {
      this.maxLogSize := maxLogSize;
      subscribers, wildcard, eventLog, closed := map[], [], [], false;
    }

    /** Subscribing to a bus that is shut down raises. */
    method Subscribe(eventType: string, h: nat) returns (ok: bool)
      requires Valid()
      modifies this`subscribers
      ensures Valid() && ok == !closed
      ensures View() ==
              if ok then old(View()).(subscribers :=
                                      old(subscribers)[eventType := OfType(old(View()), eventType) + [h]])
                        else old(View())
      ensures ok ==> multiset(Handlers(View(), eventType)) == multiset(Handlers(old(View()), eventType)) + multiset{h}
    {
      ok := !closed;
      if ok {
        var list := if eventType in subscribers then subscribers[eventType] else [];
        subscribers := subscribers[eventType := list + [h]];
      }
    }

    method SubscribeAny(h: nat) returns (ok: bool)
      requires Valid()
      modifies this`wildcard
      ensures Valid() && ok == !closed
      ensures View() == if ok then old(View()).(wildcard := old(wildcard) + [h]) else old(View())
    {
      ok := !closed;
      if ok { wildcard := wildcard + [h]; }
    }

    method Unsubscribe(eventType: string, h: nat)
      requires Valid()
      modifies this`subscribers
      ensures Valid()
      ensures View() == old(View()).(subscribers := if eventType in old(subscribers)
                          then old(subscribers)[eventType := RemoveFirst(old(subscribers)[eventType], h)]
                            else old(subscribers))
    {
      if eventType in subscribers && h in subscribers[eventType] {
        subscribers := subscribers[eventType := RemoveFirst(subscribers[eventType], h)];
      } else {
        assert eventType in subscribers ==>
          subscribers == subscribers[eventType := RemoveFirst(subscribers[eventType], h)];
      }
    }

    method QuarantineHandler(eventType: string, h: nat)
      requires Valid()
      modifies this`subscribers, this`wildcard
      ensures Valid() && View() == Quarantined(old(View()), eventType, h)
    {
      Unsubscribe(eventType, h);
      if h in wildcard { wildcard := RemoveFirst(wildcard, h); }
    }

    /** The committed part of a publication once persistence has accepted the event. */
    method Record(event: Event)
      requires Valid()
      modifies this`eventLog
      ensures Valid() && View() == old(View()).(log := LastOf(old(eventLog) + [event], maxLogSize))
    {
      eventLog := eventLog + [event];
      if |eventLog| > maxLogSize { eventLog := eventLog[1..]; }
    }

    method ShutdownCommitted()
      requires Valid()
      modifies this`closed, this`subscribers, this`wildcard
      ensures Valid() && View() == ShutDown(old(View()))
    {
      closed := true;
      subscribers := map[];
      wildcard := [];
    }
  }

  // ── Tasks on the publish lock ───────────────────────────────────────

  datatype Task =
    | Queued(event: Event)
    | Persisting(event: Event, handlers: seq<nat>)
    | Delivering(event: Event, handlers: seq<nat>, running: set<nat>)
    | Stopping
    | Ended

  /** What is observed: an accepted event with its handlers, one call (by its place among
   those handlers) finished or given up, the shutdown. */
  datatype Obs =
    | Accepted(event: Event, handlers: seq<nat>)
    | Delivered(call: nat, timedOut: bool)
    | Closed

  datatype Sys = Sys(bus: Bus, tasks: map<nat, Task>, lock: Option<nat>, trace: seq<Obs>)

  const Initial := Sys(Bus(map[], [], [], false), map[], None, [])

  datatype Step =
    | Publish(t: nat, event: Event)
    | Shutdown(t: nat)
    | Acquire(t: nat)
    | Persisted(t: nat, ok: bool)
    | HandlerEnds(t: nat, call: nat, timedOut: bool)
    | SubscribeTo(eventType: string, h: nat)
    | SubscribeToAny(h: nat)
    | UnsubscribeFrom(eventType: string, h: nat)

  function Goto(s: Sys, t: nat, task: Task): Sys { s.(tasks := s.tasks[t := task]) }

  function Observe(s: Sys, o: Obs): Sys { s.(trace := s.trace + [o]) }

  function Release(s: Sys, t: nat): Sys { Goto(s, t, Ended).(lock := None) }

  /** One concurrent call per place in the handler tuple. */
  function Calls(handlers: seq<nat>): (calls: set<nat>)
    ensures forall k: nat :: k in calls <==> k < |handlers|
  {
    if handlers == [] then {} else Calls(handlers[1..]) + {|handlers| - 1}
  }

  function TakeLock(s: Sys, t: nat): Sys
    requires t in s.tasks
  {
    match s.tasks[t]
    case Queued(event) =>
      if s.bus.closed then Goto(s, t, Ended)
      else Goto(s, t, Persisting(event, Handlers(s.bus, event.eventType))).(lock := Some(t))
    case Stopping => Observe(Goto(s, t, Ended).(bus := ShutDown(s.bus)), Closed)
    case _ => s
  }

  function PersistEnds(maxLog: nat, s: Sys, t: nat, event: Event, handlers: seq<nat>, ok: bool): Sys {
    if !ok then Release(s, t)
    else
      var u := Observe(s.(bus := s.bus.(log := LastOf(s.bus.log + [event], maxLog))), Accepted(event, handlers));
      if handlers == [] then Release(u, t) else Goto(u, t, Delivering(event, handlers, Calls(handlers)))
  }

  function DeliveryEnds(s: Sys, t: nat, event: Event, handlers: seq<nat>, running: set<nat>, call: nat,
                        timedOut: bool): Sys
    requires call < |handlers|
  {
    var bus := if timedOut then Quarantined(s.bus, event.eventType, handlers[call]) else s.bus;
    var u := Observe(s.(bus := bus), Delivered(call, timedOut));
    var left := running - {call};
    if left == {} then Release(u, t) else Goto(u, t, Delivering(event, handlers, left))
  }

  predicate Awaits(s: Sys, t: nat, call: nat) {
    t in s.tasks && s.tasks[t].Delivering? && call in s.tasks[t].running && call < |s.tasks[t].handlers|
  }

  function Exec(maxLog: nat, s: Sys, a: Step): Sys {
    match a
    case Publish(t, event) => if t in s.tasks then s else Goto(s, t, Queued(event))
    case Shutdown(t) => if t in s.tasks then s else Goto(s, t, Stopping)
    case Acquire(t) => if t !in s.tasks || s.lock.Some? then s else TakeLock(s, t)
    case Persisted(t, ok) =>
      if t in s.tasks && s.tasks[t].Persisting? then
        PersistEnds(maxLog, s, t, s.tasks[t].event, s.tasks[t].handlers, ok)
      else s
    case HandlerEnds(t, call, timedOut) =>
      if Awaits(s, t, call) then
        DeliveryEnds(s, t, s.tasks[t].event, s.tasks[t].handlers, s.tasks[t].running, call, timedOut)
      else s
    case SubscribeTo(eventType, h) =>
      if s.bus.closed then s
      else s.(bus := s.bus.(subscribers := s.bus.subscribers[eventType := OfType(s.bus, eventType) + [h]]))
    case SubscribeToAny(h) => if s.bus.closed then s else s.(bus := s.bus.(wildcard := s.bus.wildcard + [h]))
    case UnsubscribeFrom(eventType, h) =>
      if eventType in s.bus.subscribers
      then s.(bus := s.bus.(subscribers :=
                            s.bus.subscribers[eventType := RemoveFirst(s.bus.subscribers[eventType], h)]))
      else s
  }

  function Run(maxLog: nat, steps: seq<Step>): Sys {
    if steps == [] then Initial else Exec(maxLog, Run(maxLog, steps[..|steps| - 1]), steps[|steps| - 1])
  }

  // ── Reading a trace ─────────────────────────────────────────────────

  function AcceptedEvents(trace: seq<Obs>): seq<Event> {
    if trace == [] then []
    else AcceptedEvents(trace[..|trace| - 1])
         + (if trace[|trace| - 1].Accepted? then [trace[|trace| - 1].event] else [])
  }

  function StillOwed(owed: set<nat>, o: Obs): set<nat> {
    match o
    case Accepted(_, handlers) => Calls(handlers)
    case Delivered(call, _) => owed - {call}
    case Closed => owed
  }

  /** The deliveries still owed for the last accepted event. */
  function Owed(trace: seq<Obs>): set<nat> {
    if trace == [] then {} else StillOwed(Owed(trace[..|trace| - 1]), trace[|trace| - 1])
  }

  predicate Justified(past: seq<Obs>, o: Obs) {
    match o
    case Accepted(_, _) => Owed(past) == {} && Closed !in past
    case Delivered(call, _) => call in Owed(past)
    case Closed => Owed(past) == {}
  }

  predicate Lawful(trace: seq<Obs>) {
    trace == [] || (Lawful(trace[..|trace| - 1]) && Justified(trace[..|trace| - 1], trace[|trace| - 1]))
  }

  predicate Holds(task: Task) { task.Persisting? || task.Delivering? }

  /** What the holder of the lock is entitled to. */
  predicate HolderOk(s: Sys, task: Task) {
    && !s.bus.closed
    && match task
       case Persisting(_, _) => Owed(s.trace) == {}
       case Delivering(_, handlers, running) => Owed(s.trace) == running && running <= Calls(handlers)
       case _ => false
  }

  predicate Inv(maxLog: nat, s: Sys) {
    && Lawful(s.trace)
    && s.bus.log == LastOf(AcceptedEvents(s.trace), maxLog)
    && (s.bus.closed <==> Closed in s.trace)
    && (s.lock.None? ==> Owed(s.trace) == {})
    && (s.lock.Some? ==> s.lock.value in s.tasks && HolderOk(s, s.tasks[s.lock.value]))
    && (forall t | t in s.tasks && Holds(s.tasks[t]) :: s.lock == Some(t))
  }

  lemma {:induction false} Grow(trace: seq<Obs>, o: Obs)
    ensures Lawful(trace + [o]) <==> Lawful(trace) && Justified(trace, o)
    ensures AcceptedEvents(trace + [o]) == if o.Accepted? then AcceptedEvents(trace) + [o.event]
            else AcceptedEvents(trace)
    ensures Owed(trace + [o]) == StillOwed(Owed(trace), o)
  {
    assert (trace + [o])[..|trace|] == trace;
  }

  lemma PersistKeeps(maxLog: nat, s: Sys, t: nat, ok: bool)
    requires Inv(maxLog, s) && t in s.tasks && s.tasks[t].Persisting?
    ensures Inv(maxLog, PersistEnds(maxLog, s, t, s.tasks[t].event, s.tasks[t].handlers, ok))
  {
    var event := s.tasks[t].event;
    Grow(s.trace, Accepted(event, s.tasks[t].handlers));
    LastOfMore(AcceptedEvents(s.trace), event, maxLog);
  }

  /** The lock holder moves on; it is still the only holder, or nobody holds the lock. */
  lemma HolderMoves(maxLog: nat, s: Sys, u: Sys, t: nat)
    requires Inv(maxLog, s) && s.lock == Some(t)
    requires t in u.tasks && u.tasks == s.tasks[t := u.tasks[t]]
    requires Lawful(u.trace) && u.bus.log == LastOf(AcceptedEvents(u.trace), maxLog)
    requires u.bus.closed <==> Closed in u.trace
    requires if u.lock.None? then Owed(u.trace) == {} && !Holds(u.tasks[t])
             else u.lock == Some(t) && HolderOk(u, u.tasks[t])
    ensures Inv(maxLog, u)
  {
  }

  lemma DeliveryKeeps(maxLog: nat, s: Sys, t: nat, call: nat, timedOut: bool)
    requires Inv(maxLog, s) && Awaits(s, t, call)
    ensures Inv(maxLog, Exec(maxLog, s, HandlerEnds(t, call, timedOut)))
  {
    Grow(s.trace, Delivered(call, timedOut));
    var u := Exec(maxLog, s, HandlerEnds(t, call, timedOut));
    assert u.trace == s.trace + [Delivered(call, timedOut)] && u.bus.log == s.bus.log && u.bus.closed == s.bus.closed;
    assert u.tasks == s.tasks[t := u.tasks[t]];
    HolderMoves(maxLog, s, Exec(maxLog, s, HandlerEnds(t, call, timedOut)), t);
  }

  lemma ShutdownKeeps(maxLog: nat, s: Sys, t: nat)
    requires Inv(maxLog, s) && t in s.tasks && s.lock.None? && s.tasks[t].Stopping?
    ensures Inv(maxLog, TakeLock(s, t))
  {
    Grow(s.trace, Closed);
    var u := TakeLock(s, t);
    assert u.trace == s.trace + [Closed] && u.bus.log == s.bus.log && u.bus.closed;
    assert u.trace[|s.trace|] == Closed;
  }

  lemma LockKeeps(maxLog: nat, s: Sys, t: nat)
    requires Inv(maxLog, s) && t in s.tasks && s.lock.None?
    ensures Inv(maxLog, TakeLock(s, t))
  {
    if s.tasks[t].Stopping? { ShutdownKeeps(maxLog, s, t); }
  }

  lemma StepKeeps(maxLog: nat, s: Sys, a: Step)
    requires Inv(maxLog, s)
    ensures Inv(maxLog, Exec(maxLog, s, a))
  {
    match a
    case Acquire(t) => if t in s.tasks && s.lock.None? { LockKeeps(maxLog, s, t); }
    case Persisted(t, ok) => if t in s.tasks && s.tasks[t].Persisting? { PersistKeeps(maxLog, s, t, ok); }
    case HandlerEnds(t, call, timedOut) => if Awaits(s, t, call) { DeliveryKeeps(maxLog, s, t, call, timedOut); }
    case _ =>
  }

  lemma {:induction false} RunKeeps(maxLog: nat, steps: seq<Step>)
    ensures Inv(maxLog, Run(maxLog, steps))
  {
    if steps != [] {
      RunKeeps(maxLog, steps[..|steps| - 1]);
      StepKeeps(maxLog, Run(maxLog, steps[..|steps| - 1]), steps[|steps| - 1]);
    }
  }

  // ── What every run guarantees ───────────────────────────────────────

  /** The replay log is the newest part of everything accepted, however publishers race. */
  lemma {:induction false} LogIsNewest(maxLog: nat, steps: seq<Step>)
    ensures Run(maxLog, steps).bus.log == LastOf(AcceptedEvents(Run(maxLog, steps).trace), maxLog)
  {
    RunKeeps(maxLog, steps);
  }

  predicate NoneAccepted(trace: seq<Obs>, i: nat, j: nat)
    requires i < j <= |trace|
  {
    forall k | i < k < j :: !trace[k].Accepted?
  }

  /** The call was served strictly between two places of the trace. */
  predicate Served(trace: seq<Obs>, i: nat, j: nat, call: nat)
    requires i < j <= |trace|
  {
    exists k | i < k < j :: trace[k].Delivered? && trace[k].call == call
  }

  lemma {:induction false} OwedUntilServed(trace: seq<Obs>, i: nat, j: nat, call: nat)
    requires Lawful(trace) && i < j <= |trace| && trace[i].Accepted? && NoneAccepted(trace, i, j)
    ensures call in Owed(trace[..j]) <==> call < |trace[i].handlers| && !Served(trace, i, j, call)
  {
    assert trace[..j][..j - 1] == trace[..j - 1];
    assert trace[..j][j - 1] == trace[j - 1];
    if j > i + 1 {
      OwedUntilServed(trace, i, j - 1, call);
      assert Served(trace, i, j, call) <==>
             Served(trace, i, j - 1, call) || (trace[j - 1].Delivered? && trace[j - 1].call == call);
    }
  }

  lemma {:induction false} JustifiedAt(trace: seq<Obs>, i: nat)
    requires Lawful(trace) && i < |trace|
    ensures Justified(trace[..i], trace[i])
  {
    var n := |trace| - 1;
    if i < n {
      JustifiedAt(trace[..n], i);
      assert trace[..n][..i] == trace[..i];
    }
  }

  /**
   Between one accepted event and the next, exactly the calls of the handlers subscribed when its publisher
   took the lock are served: all of them finish or are given up before the next event is accepted.
   */
  lemma {:induction false} ServedBeforeNext(maxLog: nat, steps: seq<Step>, i: nat, j: nat, call: nat)
    requires var trace := Run(maxLog, steps).trace;
             i < j < |trace| && trace[i].Accepted? && trace[j].Accepted? && NoneAccepted(trace, i, j)
    ensures var trace := Run(maxLog, steps).trace;
            Served(trace, i, j, call) <==> call < |trace[i].handlers|
  {
    var trace := Run(maxLog, steps).trace;
    RunKeeps(maxLog, steps);
    JustifiedAt(trace, j);
    OwedUntilServed(trace, i, j, call);
    if Served(trace, i, j, call) {
      var k: nat :| i < k < j && trace[k].Delivered? && trace[k].call == call;
      JustifiedAt(trace, k);
      OwedUntilServed(trace, i, k, call);
    }
  }

  /** No call is served twice. */
  lemma {:induction false} ServedOnce(maxLog: nat, steps: seq<Step>, i: nat, a: nat, b: nat)
    requires var trace := Run(maxLog, steps).trace;
             i < a < |trace| && i < b < |trace| && trace[i].Accepted?
             && NoneAccepted(trace, i, a + 1) && NoneAccepted(trace, i, b + 1)
             && trace[a].Delivered? && trace[b].Delivered? && trace[a].call == trace[b].call
    ensures a == b
  {
    var trace := Run(maxLog, steps).trace;
    RunKeeps(maxLog, steps);
    var first, second := Min(a, b), Max(a, b);
    JustifiedAt(trace, second);
    OwedUntilServed(trace, i, second, trace[a].call);
    if first < second { assert false; }
  }

  /** Whenever nobody holds the lock, the last accepted event has been served completely. */
  lemma {:induction false} ServedWhenIdle(maxLog: nat, steps: seq<Step>, i: nat, call: nat)
    requires var s := Run(maxLog, steps);
             s.lock.None? && i < |s.trace| && s.trace[i].Accepted? && NoneAccepted(s.trace, i, |s.trace|)
             && call < |s.trace[i].handlers|
    ensures var trace := Run(maxLog, steps).trace; Served(trace, i, |trace|, call)
  {
    var trace := Run(maxLog, steps).trace;
    RunKeeps(maxLog, steps);
    assert trace[..|trace|] == trace;
    OwedUntilServed(trace, i, |trace|, call);
  }

  /** Nothing is accepted or delivered once the shutdown has committed. */
  lemma {:induction false} NothingAfterShutdown(trace: seq<Obs>, i: nat, j: nat)
    requires Lawful(trace) && i < j < |trace| && trace[i] == Closed
    ensures trace[j] == Closed && Owed(trace[..j]) == {}
  {
    JustifiedAt(trace, i);
    JustifiedAt(trace, j);
    assert trace[..j][i] == Closed;
    if i + 1 < j { NothingAfterShutdown(trace, i, j - 1); }
    assert trace[..j][..j - 1] == trace[..j - 1];
  }

  lemma {:induction false} ShutdownIsFinal(maxLog: nat, steps: seq<Step>, i: nat, j: nat)
    requires i < j < |Run(maxLog, steps).trace| && Run(maxLog, steps).trace[i] == Closed
    ensures !Run(maxLog, steps).trace[j].Accepted? && !Run(maxLog, steps).trace[j].Delivered?
  {
    RunKeeps(maxLog, steps);
    NothingAfterShutdown(Run(maxLog, steps).trace, i, j);
  }
}
