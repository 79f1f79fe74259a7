/**
 The `sync` server never deadlocks on its lock or on the aggregator's channel, and every shutdown
 completes.
 */
module SyncProgress {
  import ServerSystem
  import opened SyncMode

  function HandlerWork(h: Handler): nat {
    match h
    case Resting => 0
    case Locking(_) => 6
    case Adding(_) => 5
    case Subbing(_) => 4
    case Unlocking => 3
    case Sending => 2
  }

  function HandlersWork(handlers: seq<Handler>): nat {
    if handlers == [] then 0
    else HandlersWork(handlers[..|handlers| - 1]) + HandlerWork(handlers[|handlers| - 1])
  }

  function ReaderWork(reader: Reader): nat {
    match reader
    case Ticking => 4
    case WantLock(final) => if final then 3 else 7
    case Holding(final) => if final then 2 else 6
    case Copied(final, _, _) => if final then 1 else 5
    case Over => 0
  }

  function MainWork(main: ServerSystem.Main): nat {
    match main
    case StopPrinter => 4
    case AwaitPrinter => 3
    case StopAgg => 2
    case AwaitAgg => 1
    case _ => 0
  }

  /** What is left to do without new input. */
  function Work(s: Sync): nat {
    HandlersWork(s.handlers) + ReaderWork(s.reader) + MainWork(s.main)
    + (if s.taken <= s.sent then s.sent - s.taken else 0) + (if s.aggDone then 0 else 1)
  }

  lemma {:induction false} HandlersWorkUpdate(handlers: seq<Handler>, i: nat, h: Handler)
    requires i < |handlers|
    ensures HandlersWork(handlers[i := h]) + HandlerWork(handlers[i]) == HandlersWork(handlers) + HandlerWork(h)
  {
    var last := |handlers| - 1;
    if i < last {
      HandlersWorkUpdate(handlers[..last], i, h);
      assert handlers[i := h][..last] == handlers[..last][i := h];
    } else {
      assert handlers[i := h][..last] == handlers[..last];
    }
  }

  /** Not from outside: no new request, no tick of the printer, no return of the HTTP server. */
  predicate Internal(e: Event) {
    !e.Enter? && !e.PrinterTick? && !e.Return?
  }

  /** The most work one external event can add: that of a request. */
  const EXTERNAL_WORK := 6

  lemma StepDecreases(s: Sync, i: nat)
    requires Inv(s) && HandlerCan(s, i)
    ensures Work(HandlerStep(s, i)) < Work(s)
  {
    hide Exclusive, Consistent, Observed;
    assert !s.aggDone;
    HandlersWorkUpdate(s.handlers, i, HandlerStep(s, i).handlers[i]);
    hide HandlersWork;
  }

  lemma InternalDecreases(s: Sync, e: Event)
    requires Inv(s) && CanDo(s, e) && Internal(e)
    ensures Work(Do(s, e)) < Work(s)
  {
    hide Exclusive, Consistent, Observed, HandlersWork;
    if e.Step? {
      StepDecreases(s, e.i);
    }
  }

  lemma ExternalAdds(s: Sync, e: Event)
    requires CanDo(s, e) && !Internal(e)
    ensures Work(Do(s, e)) <= Work(s) + EXTERNAL_WORK
  {
    if e.Enter? {
      HandlersWorkUpdate(s.handlers, e.i, Locking(e.num));
    }
    hide HandlersWork;
  }

  function Internals(events: seq<Event>): (n: nat)
    ensures n <= |events|
  {
    if events == [] then 0 else (if Internal(events[0]) then 1 else 0) + Internals(events[1..])
  }

  /** In every run the internal events are at most Work(s) and a constant for each external event. */
  lemma {:induction false} WorkBoundsRuns(s: Sync, events: seq<Event>)
    requires Inv(s) && Possible(s, events)
    ensures Internals(events) + Work(Result(s, events)) <= Work(s) + EXTERNAL_WORK * (|events| - Internals(events))
    decreases |events|
  {
    hide Inv, Work, Do, CanDo, Internal;
    if events != [] {
      if Internal(events[0]) {
        InternalDecreases(s, events[0]);
      } else {
        ExternalAdds(s, events[0]);
      }
      InvKept(s, events[0]);
      WorkBoundsRuns(Do(s, events[0]), events[1..]);
    }
  }

  /** Nothing is pending: serving with every handler at rest, or returned. */
  predicate Settled(s: Sync) {
    && (forall i :: 0 <= i < |s.handlers| ==> s.handlers[i].Resting?)
    && (s.taken == s.sent || s.aggDone)
    && ((s.main.Serving? && s.reader.Ticking?) || s.main.Returned?)
  }

  /** No deadlock: while anything is pending, an internal event is possible. */
  lemma Progress(s: Sync) returns (e: Event)
    requires Inv(s) && !Settled(s)
    ensures CanDo(s, e) && Internal(e)
  {
    hide Consistent, Observed;
    if !s.aggDone && s.taken < s.sent {
      e := Record;
    } else if s.lock.ByPrinter? {
      e := PrinterStep;
    } else if s.lock.ByHandler? {
      assert Inside(s.handlers[s.lock.i]);
      e := Step(s.lock.i);
    } else if i :| 0 <= i < |s.handlers| && !s.handlers[i].Resting? {
      assert !Inside(s.handlers[i]);
      e := Step(i);
    } else {
      e := IdleProgress(s);
    }
  }

  /** With the handlers at rest and the lock free, it is up to printer, Run and aggregator. */
  lemma IdleProgress(s: Sync) returns (e: Event)
    requires Inv(s) && !Settled(s) && s.lock.Free? && (s.taken == s.sent || s.aggDone)
    requires forall i :: 0 <= i < |s.handlers| ==> s.handlers[i].Resting?
    ensures CanDo(s, e) && Internal(e)
  {
    hide Consistent, Sampled;
    if s.reader.WantLock? {
      e := PrinterStep;
    } else if s.reader.Ticking? && s.stopPrinter {
      e := PrinterStop;
    } else if s.main.AwaitAgg? && !s.aggDone {
      e := Leave;
    } else {
      e := Deferred;
    }
  }

  /** Shutdown completes: after the HTTP server has returned, the internal events are bounded, and
      when none is possible any more Run has returned. */
  lemma ShutdownCompletes(n: nat, events: seq<Event>, more: seq<Event>)
    requires Possible(Start(n), events) && !Result(Start(n), events).main.Serving?
    requires Possible(Result(Start(n), events), more)
    ensures var s := Result(Start(n), events);
      && Internals(more) <= Work(s) + EXTERNAL_WORK * (|more| - Internals(more))
      && ((forall e :: Internal(e) ==> !CanDo(Result(s, more), e)) ==> Result(s, more).main.Returned?)
  {
    hide Inv, Work, Do, CanDo, Internal, Settled, Start;
    StartInv(n);
    RunKeepsInv(Start(n), events);
    var s := Result(Start(n), events);
    WorkBoundsRuns(s, more);
    RunKeepsInv(s, more);
    NoReturnToServing(s, more);
    var t := Result(s, more);
    if !Settled(t) {
      var e := Progress(t);
      assert Internal(e) && CanDo(t, e);
    } else {
      SettledIsReturned(t);
    }
  }

  lemma SettledIsReturned(s: Sync)
    requires Settled(s) && !s.main.Serving?
    ensures s.main.Returned?
  {
  }

  lemma {:induction false} NoReturnToServing(s: Sync, events: seq<Event>)
    requires Possible(s, events) && !s.main.Serving?
    ensures !Result(s, events).main.Serving?
    decreases |events|
  {
    if events != [] {
      NoReturnToServing(Do(s, events[0]), events[1..]);
    }
  }
}
