/**
 The server in `sync` mode: handlers calculate themselves, under a lock that is a channel of
 capacity one, and record their sample after unlocking. Printer, aggregator and shutdown as in
 ServerSystem; there is no calculator to stop.
 */
module SyncMode {
  import opened Word64
  import opened ServerSystem

  /** A handler inside Calculate: waiting for the lock, before and after the add call, before the
      unlock, and sending its sample. */
  datatype Handler = Resting | Locking(num: int) | Adding(num: int) | Subbing(num: int) | Unlocking | Sending

  /** The printer inside Values: waiting for the lock, holding it, and having copied the totals. */
  datatype Reader = Ticking | WantLock(final: bool) | Holding(final: bool) | Copied(final: bool, vals: Values, seen: nat) | Over

  datatype Holder = Free | ByHandler(i: nat) | ByPrinter

  datatype Totals = Totals(final: bool, vals: Values, seen: nat)

  /** `applied`: the numbers in the order in which they were calculated; `sent`: samples that went
      to the aggregator, `taken`: those it has recorded. */
  datatype Sync = Sync(
    handlers: seq<Handler>, lock: Holder, vals: Values, applied: seq<int>,
    reader: Reader, stopPrinter: bool, reports: seq<Totals>, main: Main,
    sent: nat, taken: nat, aggStop: bool, aggDone: bool, panicked: bool)

  function Start(n: nat): Sync {
    Sync(seq(n, _ => Resting), Free, ZERO, [], Ticking, false, [], Serving, 0, 0, false, false, false)
  }

  datatype Event = Enter(i: nat, num: int) | Step(i: nat) | PrinterTick | PrinterStop | PrinterStep
                 | Return | Deferred | Record | Leave

  predicate HandlerCan(s: Sync, i: nat) {
    && i < |s.handlers|
    && match s.handlers[i]
       case Resting => false
       case Locking(_) => s.lock.Free?
       case Sending => s.aggDone || (s.taken <= s.sent < s.taken + AGG_QUEUE)
       case _ => true
  }

  predicate CanDo(s: Sync, e: Event) {
    match e
    case Enter(i, _) => i < |s.handlers| && s.handlers[i].Resting? && s.main.Serving?
    case Step(i) => HandlerCan(s, i)
    case PrinterTick => s.reader.Ticking?
    case PrinterStop => s.reader.Ticking? && s.stopPrinter
    case PrinterStep => (s.reader.WantLock? && s.lock.Free?) || s.reader.Holding? || s.reader.Copied?
    case Return => s.main.Serving? && forall i :: 0 <= i < |s.handlers| ==> s.handlers[i].Resting?
    case Deferred => (s.main.StopPrinter? || s.main.StopAgg?
                      || (s.main.AwaitPrinter? && s.reader.Over?) || (s.main.AwaitAgg? && s.aggDone))
    case Record => !s.aggDone && s.taken < s.sent
    case Leave => !s.aggDone && s.aggStop
  }

  function HandlerStep(s: Sync, i: nat): Sync
    requires HandlerCan(s, i)
  {
    match s.handlers[i]
    case Locking(num) => s.(lock := ByHandler(i), handlers := s.handlers[i := Adding(num)])
    case Adding(num) => s.(vals := s.vals.(sum := AddOp(s.vals.sum, num)), handlers := s.handlers[i := Subbing(num)])
    case Subbing(num) =>
      s.(vals := s.vals.(sub := SubOp(s.vals.sub, num)), applied := s.applied + [num],
         handlers := s.handlers[i := Unlocking])
    case Unlocking => s.(lock := Free, handlers := s.handlers[i := Sending])
    case Sending => if s.aggDone then s.(panicked := true) else s.(sent := s.sent + 1, handlers := s.handlers[i := Resting])
  }

  function PrinterMove(s: Sync): Sync
    requires CanDo(s, PrinterStep)
  {
    match s.reader
    case WantLock(final) => s.(lock := ByPrinter, reader := Holding(final))
    case Holding(final) => s.(reader := Copied(final, s.vals, |s.applied|))
    case Copied(final, vals, seen) =>
      s.(lock := Free, reader := if final then Over else Ticking, reports := s.reports + [Totals(final, vals, seen)])
  }

  function Do(s: Sync, e: Event): Sync
    requires CanDo(s, e)
  {
    match e
    case Enter(i, num) => s.(handlers := s.handlers[i := Locking(num)])
    case Step(i) => HandlerStep(s, i)
    case PrinterTick => s.(reader := WantLock(false))
    case PrinterStop => s.(reader := WantLock(true))
    case PrinterStep => PrinterMove(s)
    case Return => s.(main := StopPrinter)
    case Deferred => (
      match s.main
      case StopPrinter => s.(stopPrinter := true, main := AwaitPrinter)
      case AwaitPrinter => s.(main := StopAgg)
      case StopAgg => s.(aggStop := true, main := AwaitAgg)
      case _ => s.(main := Returned))
    case Record => s.(taken := s.taken + 1)
    case Leave => s.(aggDone := true)
  }

  predicate Possible(s: Sync, events: seq<Event>)
    decreases |events|
  {
    events == [] || (CanDo(s, events[0]) && Possible(Do(s, events[0]), events[1..]))
  }

  function Result(s: Sync, events: seq<Event>): Sync
    requires Possible(s, events)
    decreases |events|
  {
    if events == [] then s else Result(Do(s, events[0]), events[1..])
  }

  // ---- invariant ----

  predicate Inside(h: Handler) {
    h.Adding? || h.Subbing? || h.Unlocking?
  }

  /** Mutual exclusion. */
  predicate Exclusive(s: Sync) {
    && (forall i :: 0 <= i < |s.handlers| ==> (Inside(s.handlers[i]) <==> s.lock == ByHandler(i)))
    && (s.reader.Holding? || s.reader.Copied? <==> s.lock.ByPrinter?)
    && (s.lock.ByHandler? ==> s.lock.i < |s.handlers|)
  }

  /** The totals are the fold of what was calculated, except between the two calls of the handler
      that holds the lock. */
  predicate Consistent(s: Sync) {
    if s.lock.ByHandler? && s.lock.i < |s.handlers| && s.handlers[s.lock.i].Subbing? then
      s.vals == Values(AddOp(Fold(s.applied).sum, s.handlers[s.lock.i].num), Fold(s.applied).sub)
    else s.vals == Fold(s.applied)
  }

  predicate Untorn(applied: seq<int>, vals: Values, seen: nat) {
    seen <= |applied| && vals == Fold(applied[..seen])
  }

  predicate Observed(s: Sync) {
    && (forall r :: 0 <= r < |s.reports| ==>
          && Untorn(s.applied, s.reports[r].vals, s.reports[r].seen)
          && (s.reports[r].final ==> s.reports[r].seen == |s.applied|)
          && (s.reports[r].final <==> s.reader.Over? && r == |s.reports| - 1))
    && (forall q, r :: 0 <= q < r < |s.reports| ==> s.reports[q].seen <= s.reports[r].seen)
    && (s.reader.Over? ==> s.reports != [])
    && (s.reader.Copied? ==>
          && Untorn(s.applied, s.reader.vals, s.reader.seen)
          && s.reader.seen == |s.applied|)
  }

  predicate Ordered(s: Sync) {
    && !s.panicked
    && (s.main.Serving? || s.main.StopPrinter? || s.main.AwaitPrinter? || s.main.StopAgg? || s.main.AwaitAgg? || s.main.Returned?)
    && (!s.main.Serving? ==> forall i :: 0 <= i < |s.handlers| ==> s.handlers[i].Resting?)
    && (s.stopPrinter <==> !s.main.Serving? && !s.main.StopPrinter?)
    && ((s.reader.Over? || ((s.reader.WantLock? || s.reader.Holding? || s.reader.Copied?) && s.reader.final)) ==> s.stopPrinter)
    && (s.aggStop <==> s.main.AwaitAgg? || s.main.Returned?)
    && (s.aggDone ==> s.aggStop)
    && (s.main.StopAgg? || s.main.AwaitAgg? || s.main.Returned? ==> s.reader.Over?)
  }

  /** One sample for every number: sent, or still with the handler that calculated it. */
  function Unsent(handlers: seq<Handler>): nat {
    if handlers == [] then 0
    else Unsent(handlers[..|handlers| - 1]) + Owes(handlers[|handlers| - 1])
  }

  function Owes(h: Handler): nat {
    if h.Unlocking? || h.Sending? then 1 else 0
  }

  predicate Sampled(s: Sync) {
    s.sent + Unsent(s.handlers) == |s.applied| && s.taken <= s.sent
  }

  lemma {:induction false} UnsentUpdate(handlers: seq<Handler>, i: nat, h: Handler)
    requires i < |handlers|
    ensures Unsent(handlers[i := h]) + Owes(handlers[i]) == Unsent(handlers) + Owes(h)
  {
    var last := |handlers| - 1;
    if i < last {
      UnsentUpdate(handlers[..last], i, h);
      assert handlers[i := h][..last] == handlers[..last][i := h];
    } else {
      assert handlers[i := h][..last] == handlers[..last];
    }
  }

  lemma {:induction false} NoneUnsent(handlers: seq<Handler>)
    requires forall i :: 0 <= i < |handlers| ==> handlers[i].Resting?
    ensures Unsent(handlers) == 0
  {
    if handlers != [] {
      NoneUnsent(handlers[..|handlers| - 1]);
    }
  }

  predicate Inv(s: Sync) {
    Exclusive(s) && Consistent(s) && Observed(s) && Ordered(s) && Sampled(s)
  }

  lemma StartInv(n: nat)
    ensures Inv(Start(n))
  {
    NoneUnsent(Start(n).handlers);
  }

  lemma HandlerKeepsLock(s: Sync, i: nat)
    requires Exclusive(s) && Consistent(s) && HandlerCan(s, i)
    ensures Exclusive(HandlerStep(s, i)) && Consistent(HandlerStep(s, i))
  {
    var t := HandlerStep(s, i);
    match s.handlers[i]
    case Locking(num) =>
    case Adding(num) => assert s.lock == ByHandler(i) && t.lock == s.lock;
    case Subbing(num) =>
      assert s.lock == ByHandler(i) && t.lock == s.lock;
      FoldAppend(s.applied, num);
      hide Fold, AddOp, SubOp;
    case _ => hide Fold;
  }

  lemma HandlerKeepsRest(s: Sync, i: nat)
    requires Exclusive(s) && Observed(s) && Ordered(s) && Sampled(s) && HandlerCan(s, i)
    ensures Observed(HandlerStep(s, i)) && Ordered(HandlerStep(s, i)) && Sampled(HandlerStep(s, i))
  {
    var t := HandlerStep(s, i);
    assert s.main.Serving? && !s.aggDone;
    UnsentUpdate(s.handlers, i, t.handlers[i]);
    forall vals, seen: nat | Untorn(s.applied, vals, seen) ensures Untorn(t.applied, vals, seen) {
      assert t.applied[..seen] == s.applied[..seen];
    }
  }

  lemma PrinterKeepsInv(s: Sync)
    requires Inv(s) && CanDo(s, PrinterStep)
    ensures Inv(PrinterMove(s))
  {
    assert s.applied[..|s.applied|] == s.applied;
    if s.reader.Copied? {
      forall r | 0 <= r < |s.reports| ensures s.reports[r].seen <= s.reader.seen {
        assert Untorn(s.applied, s.reports[r].vals, s.reports[r].seen);
      }
    }
  }

  lemma EnterKeepsInv(s: Sync, i: nat, num: int)
    requires Inv(s) && CanDo(s, Enter(i, num))
    ensures Inv(Do(s, Enter(i, num)))
  {
    UnsentUpdate(s.handlers, i, Locking(num));
    hide Unsent;
  }

  lemma OthersKeepInv(s: Sync, e: Event)
    requires Inv(s) && CanDo(s, e) && !e.Enter? && !e.Step? && !e.PrinterStep?
    ensures Inv(Do(s, e))
  {
    hide Untorn, Unsent, Fold;
    match e
    case Deferred =>
    case _ =>
  }

  lemma InvKept(s: Sync, e: Event)
    requires Inv(s) && CanDo(s, e)
    ensures Inv(Do(s, e))
  {
    match e
    case Step(i) =>
      HandlerKeepsLock(s, i);
      HandlerKeepsRest(s, i);
    case PrinterStep => PrinterKeepsInv(s);
    case Enter(i, num) => EnterKeepsInv(s, i, num);
    case _ => OthersKeepInv(s, e);
  }

  lemma {:induction false} RunKeepsInv(s: Sync, events: seq<Event>)
    requires Inv(s) && Possible(s, events)
    ensures Inv(Result(s, events))
    decreases |events|
  {
    if events != [] {
      InvKept(s, events[0]);
      RunKeepsInv(Do(s, events[0]), events[1..]);
    }
  }

  // ---- when handlers and printer wait ----

  /** The lock, a channel of capacity one, is free for a handler exactly while nobody calculates and
      the printer does not copy the totals; a sample waits exactly while the aggregator's channel is
      full. */
  lemma HandlerWaits(s: Sync, i: nat)
    requires Inv(s) && i < |s.handlers|
    ensures s.handlers[i].Locking? ==>
      (CanDo(s, Step(i)) <==>
         (forall j :: 0 <= j < |s.handlers| ==> !Inside(s.handlers[j])) && !s.reader.Holding? && !s.reader.Copied?)
    ensures s.handlers[i].Sending? ==> (CanDo(s, Step(i)) <==> s.sent - s.taken < AGG_QUEUE)
  {
    hide Consistent, Observed;
    if s.lock.ByHandler? {
      assert Inside(s.handlers[s.lock.i]);
    }
  }

  /** The printer waits for the lock exactly while somebody calculates. */
  lemma PrinterWaits(s: Sync)
    requires Inv(s) && s.reader.WantLock?
    ensures CanDo(s, PrinterStep) <==> forall j :: 0 <= j < |s.handlers| ==> !Inside(s.handlers[j])
  {
    hide Consistent, Observed, Ordered, Sampled;
    if s.lock.ByHandler? {
      assert Inside(s.handlers[s.lock.i]);
    }
  }

  // ---- main results ----

  /** Sum and Sub are consistent for everybody who may look: with the lock free they are the fold
      of all numbers calculated, and each reported pair is the fold of a prefix of them. */
  lemma SyncIsConsistent(n: nat, events: seq<Event>, r: nat)
    requires Possible(Start(n), events)
    requires r < |Result(Start(n), events).reports|
    ensures var s := Result(Start(n), events);
      && (s.lock.Free? ==> s.vals == Fold(s.applied))
      && Untorn(s.applied, s.reports[r].vals, s.reports[r].seen)
      && s.reports[r].vals.sub == Wrap(-s.reports[r].vals.sum)
  {
    hide Possible, Result, Start, Inv;
    StartInv(n);
    RunKeepsInv(Start(n), events);
    ReportIsUntorn(Result(Start(n), events), r);
  }

  lemma ReportIsUntorn(s: Sync, r: nat)
    requires Inv(s) && r < |s.reports|
    ensures s.lock.Free? ==> s.vals == Fold(s.applied)
    ensures Untorn(s.applied, s.reports[r].vals, s.reports[r].seen)
    ensures s.reports[r].vals.sub == Wrap(-s.reports[r].vals.sum)
  {
    hide Exclusive, Ordered, Sampled, Fold;
    FoldIsBalanced(s.applied[..s.reports[r].seen]);
  }

  /** Shutdown: no send on a closed channel; when Run returns, the final report, the last one, has
      the exact totals of all numbers calculated, and every sample had reached the aggregator. */
  lemma SyncStopsCleanly(n: nat, events: seq<Event>)
    requires Possible(Start(n), events)
    ensures var s := Result(Start(n), events);
      && !s.panicked
      && (s.main.Returned? ==>
            && s.reports != [] && s.reports[|s.reports| - 1].final
            && s.reports[|s.reports| - 1].vals == Values(Wrap(Sum(s.applied)), Wrap(-Sum(s.applied)))
            && s.sent == |s.applied|)
  {
    hide Possible, Result, Start;
    StartInv(n);
    RunKeepsInv(Start(n), events);
    var s := Result(Start(n), events);
    hide Exclusive, Consistent, Observed, Sampled;
    if s.main.Returned? {
      ReturnedIsClean(s);
    }
  }

  lemma ReturnedIsClean(s: Sync)
    requires Inv(s) && s.main.Returned?
    ensures s.reports != [] && s.reports[|s.reports| - 1].final
    ensures s.reports[|s.reports| - 1].vals == Values(Wrap(Sum(s.applied)), Wrap(-Sum(s.applied)))
    ensures s.sent == |s.applied|
  {
    hide Exclusive, Consistent, Fold, Sum, Unsent;
    NoneUnsent(s.handlers);
    assert s.applied[..|s.applied|] == s.applied;
    FoldIsWrappedSum(s.applied);
  }
}
