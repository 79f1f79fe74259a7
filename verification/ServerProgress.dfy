/**
 The `async` and `parallel` server never deadlocks and cannot work for ever without new input:
 every internal event decreases a measure, and as long as anything is pending some internal event
 is enabled. So every shutdown completes.
 */
module ServerProgress {
  import opened Word64
  import opened Calculators
  import opened ServerSystem
  import opened ServerInvariant
  import opened ServerTheorems

  // ---- the measure ----

  /** Seven units for every calculator a number has still to be pushed to. */
  function ClientWork(client: Client, k: nat): nat {
    if client.Offering? && client.stage < k then 7 * (k - client.stage) else 0
  }

  function ClientsWork(clients: seq<Client>, k: nat): nat {
    if clients == [] then 0
    else ClientsWork(clients[..|clients| - 1], k) + ClientWork(clients[|clients| - 1], k)
  }

  function ServerWork(sv: Server): nat {
    6 * |sv.queue|
    + (match sv.pc case Calc(_) => 7 case CalcSub(_) => 6 case Exiting => 1 case Stopped => 0 case _ => 2)
    + (if sv.open != [] then 2 else 0)
    + (if sv.timer then 1 else 0)
  }

  function ServersWork(servers: seq<Server>): nat {
    if servers == [] then 0
    else ServersWork(servers[..|servers| - 1]) + ServerWork(servers[|servers| - 1])
  }

  function PrinterWork(printer: Printer, k: nat): nat {
    match printer
    case Finished => 0
    case Waiting => k + 1
    case Reading(final, _, seen) => (if |seen| < k then k - |seen| else 0) + (if final then 0 else k + 1)
  }

  function MainWork(main: Main, k: nat): nat {
    match main
    case CloseCalc(i) => if i < k then 4 + 2 * (k - i) else 0
    case AwaitCalc(i) => if i < k then 3 + 2 * (k - i) else 0
    case StopPrinter => 4
    case AwaitPrinter => 3
    case StopAgg => 2
    case AwaitAgg => 1
    case _ => 0
  }

  function GetterWork(getter: Getter): nat {
    match getter
    case NoGetter => 0
    case Asking => 3
    case Awaiting => 2
    case InCallback => 1
  }

  /** What is left to do without new input. */
  function Work(s: State): nat {
    ClientsWork(s.clients, |s.servers|) + ServersWork(s.servers) + PrinterWork(s.printer, |s.servers|)
    + MainWork(s.main, |s.servers|) + GetterWork(s.getter)
    + |s.aggQueue| + (if s.aggPc.AggStopped? then 0 else 1)
  }

  lemma {:induction false} ClientsWorkUpdate(clients: seq<Client>, i: nat, client: Client, k: nat)
    requires i < |clients|
    ensures ClientsWork(clients[i := client], k) + ClientWork(clients[i], k) ==
            ClientsWork(clients, k) + ClientWork(client, k)
  {
    var last := |clients| - 1;
    if i < last {
      ClientsWorkUpdate(clients[..last], i, client, k);
      assert clients[i := client][..last] == clients[..last][i := client];
    } else {
      assert clients[i := client][..last] == clients[..last];
    }
  }

  lemma {:induction false} ServersWorkUpdate(servers: seq<Server>, j: nat, sv: Server)
    requires j < |servers|
    ensures ServersWork(servers[j := sv]) + ServerWork(servers[j]) == ServersWork(servers) + ServerWork(sv)
  {
    var last := |servers| - 1;
    if j < last {
      ServersWorkUpdate(servers[..last], j, sv);
      assert servers[j := sv][..last] == servers[..last][j := sv];
    } else {
      assert servers[j := sv][..last] == servers[..last];
    }
  }

  // ---- every internal event decreases it ----

  lemma MoveDecreases(sv: Server, move: Move, size: nat)
    requires CanMove(sv, move)
    ensures ServerWork(Moved(sv, move, size)) + (if move.HandBatch? then 2 else 1) <= ServerWork(sv)
  {
  }

  lemma ClientDecreases(c: Config, s: State, i: nat, ce: ClientEvent)
    requires Inv(c, s) && ClientCan(c, s, i, ce) && !ce.Begin?
    ensures Work(ClientStep(c, s, i, ce)) < Work(s)
  {
    hide Servers, Flow, Delivered, Reports;
    var k, t := |s.servers|, ClientStep(c, s, i, ce);
    ClientsWorkUpdate(s.clients, i, t.clients[i], k);
    if ce.Push? {
      var j := s.clients[i].stage;
      assert !s.servers[j].closed;
      ServersWorkUpdate(s.servers, j, Offer(s.servers[j], s.clients[i].num, c.cap));
    }
  }

  lemma ServerDecreases(c: Config, s: State, j: nat, move: Move)
    requires Inv(c, s) && ServerCan(s, j, move)
    ensures Work(ServerStep(c, s, j, move)) < Work(s)
  {
    hide Flow, Delivered, Reports, Moved, ServerWork;
    ServerKeepsOrder(c, s, j, move);
    MoveDecreases(s.servers[j], move, c.size);
    ServersWorkUpdate(s.servers, j, Moved(s.servers[j], move, c.size));
  }

  lemma MainDecreases(c: Config, s: State)
    requires Inv(c, s) && MainCan(s, Defer)
    ensures Work(MainStep(s, Defer)) < Work(s)
  {
    hide Servers, Flow, Delivered, Reports;
    MainKeepsOrder(c, s, Defer);
    if s.main.CloseCalc? {
      ServersWorkUpdate(s.servers, s.main.i, s.servers[s.main.i].(closed := true));
    }
  }

  lemma PrinterDecreases(s: State, pe: PrinterEvent)
    requires PrinterCan(s, pe) && !pe.PrintTick?
    ensures Work(PrinterStep(s, pe)) < Work(s)
  {
    hide ServersWork, ClientsWork, MainWork, GetterWork, Merge;
  }

  lemma AggDecreases(s: State, ae: AggEvent)
    requires AggCan(s, ae)
    ensures Work(AggStep(s, ae)) < Work(s)
  {
  }

  lemma GetterDecreases(s: State, ge: GetterEvent)
    requires GetterCan(s, ge) && !ge.GetBegin?
    ensures Work(GetterStep(s, ge)) < Work(s)
  {
  }

  lemma InternalDecreases(c: Config, s: State, e: Event)
    requires Inv(c, s) && Enabled(c, s, e) && Internal(e)
    ensures Work(Apply(c, s, e)) < Work(s)
  {
    hide Inv, Work, ClientStep, ServerStep, MainStep, PrinterStep, AggStep, GetterStep;
    match e
    case ClientAct(i, ce) => ClientDecreases(c, s, i, ce);
    case ServerAct(j, move) => ServerDecreases(c, s, j, move);
    case MainAct(me) => MainDecreases(c, s);
    case PrinterAct(pe) => PrinterDecreases(s, pe);
    case AggAct(ae) => AggDecreases(s, ae);
    case GetterAct(ge) => GetterDecreases(s, ge);
  }

  predicate AllInternal(events: seq<Event>) {
    forall i :: 0 <= i < |events| ==> Internal(events[i])
  }

  /** The most work one external event can add: a number to be pushed to two calculators. */
  const EXTERNAL_WORK := 14

  /** A new request, a scrape, a tick of the printer or the return of the HTTP server. */
  lemma ExternalAdds(c: Config, s: State, e: Event)
    requires Inv(c, s) && Enabled(c, s, e) && !Internal(e)
    ensures Work(Apply(c, s, e)) <= Work(s) + EXTERNAL_WORK
  {
    hide Flow, Order, Delivered, Reports, ServersWork;
    assert |s.servers| <= 2 by { hide SoundAs; }
    match e
    case ClientAct(i, ce) => ClientsWorkUpdate(s.clients, i, Offering(ce.num, 0), |s.servers|);
    case PrinterAct(pe) => hide ClientsWork;
    case MainAct(me) => hide ClientsWork;
    case GetterAct(ge) => hide ClientsWork;
  }

  function Internals(events: seq<Event>): (n: nat)
    ensures n <= |events|
    ensures AllInternal(events) ==> n == |events|
  {
    if events == [] then 0
    else
      assert AllInternal(events) ==> Internal(events[0]) && AllInternal(events[1..]);
      (if Internal(events[0]) then 1 else 0) + Internals(events[1..])
  }

  /** In every run the internal events are at most Work(s) and a constant for each external event,
      whatever their order; without new input, at most Work(s). */
  lemma {:induction false} WorkBoundsRuns(c: Config, s: State, events: seq<Event>)
    requires Inv(c, s) && IsRun(c, s, events)
    ensures Internals(events) + Work(Execute(c, s, events)) <= Work(s) + EXTERNAL_WORK * (|events| - Internals(events))
    decreases |events|
  {
    hide Inv, Work, Apply, Enabled;
    if events != [] {
      if Internal(events[0]) {
        InternalDecreases(c, s, events[0]);
      } else {
        ExternalAdds(c, s, events[0]);
      }
      InvKept(c, s, events[0]);
      WorkBoundsRuns(c, Apply(c, s, events[0]), events[1..]);
    }
  }

  // ---- while work is pending, some internal event is enabled ----

  predicate ServerSettled(sv: Server) {
    sv.pc.Stopped? || (sv.pc.Select? && !sv.closed && sv.queue == [] && sv.open == [])
  }

  /** Nothing is pending: serving with every queue empty, or returned. */
  predicate Settled(s: State) {
    && (forall i :: 0 <= i < |s.clients| ==> s.clients[i].Idle?)
    && (forall j :: 0 <= j < |s.servers| ==> ServerSettled(s.servers[j]))
    && (s.aggQueue == [] || s.aggPc.AggStopped?)
    && s.getter.NoGetter?
    && ((s.main.Serving? && s.printer.Waiting? && !s.aggPc.AggStopped?) || s.main.Returned?)
  }

  lemma SomeMove(sv: Server, cap: nat, size: nat) returns (move: Move)
    requires Sound(sv, cap, size) && !ServerSettled(sv)
    ensures CanMove(sv, move)
  {
    hide Batched, Folded;
    match sv.pc
    case Select =>
      move := if sv.queue != [] then Recv else if sv.open != [] then Expire else Quit;
    case Calc(_) => move := Call(0);
    case CalcSub(_) => move := Call(0);
    case Flushing => move := HandBatch;
    case Exiting => move := if sv.open != [] then HandBatch else Finish;
    case Stopped => move := Finish;
  }

  /** A server that is not settled has a move, once the aggregator can take a batch. */
  lemma ServerProgress(c: Config, s: State, j: nat) returns (move: Move)
    requires Inv(c, s) && j < |s.servers| && !ServerSettled(s.servers[j])
    requires s.aggQueue == []
    ensures ServerCan(s, j, move)
  {
    hide Sound, ServerSettled, CanMove, Flow, Delivered, Reports;
    assert SoundAs(c, j, s.servers[j]);
    move := SomeMove(s.servers[j], c.cap, c.size);
  }

  /** A parked or offering handler is served once its calculator has nothing else to do. */
  lemma ClientProgress(c: Config, s: State, i: nat)
    requires Inv(c, s) && i < |s.clients| && s.clients[i].Offering?
    requires forall j :: 0 <= j < |s.servers| ==> ServerSettled(s.servers[j])
    ensures ClientCan(c, s, i, Push)
  {
    hide Flow, Reports, Delivered;
    var j := s.clients[i].stage;
    assert SoundAs(c, j, s.servers[j]) && ServerSettled(s.servers[j]);
    assert !s.servers[j].closed;
  }

  /** No deadlock: as long as the server has not settled some internal event can happen, so no
      cycle of handler, calculator, aggregator and snapshot getter waits for itself. */
  lemma Progress(c: Config, s: State) returns (e: Event)
    requires Inv(c, s) && !Settled(s)
    ensures Enabled(c, s, e) && Internal(e)
  {
    if s.aggPc.AggReply? {
      e := AggAct(AggAnswer);
    } else if s.aggPc.AggSelect? && s.aggQueue != [] {
      e := AggAct(AggTake);
    } else if s.getter.Asking? {
      e := if s.aggPc.AggStopped? then GetterAct(GetDone) else AggAct(AggAsk);
    } else if s.getter.InCallback? {
      e := GetterAct(GetEnd);
    } else if j :| 0 <= j < |s.servers| && !ServerSettled(s.servers[j]) {
      AggStoppedMeansReturning(c, s);
      var move := ServerProgress(c, s, j);
      e := ServerAct(j, move);
    } else if i :| 0 <= i < |s.clients| && s.clients[i].Offering? {
      ClientProgress(c, s, i);
      e := ClientAct(i, Push);
    } else {
      e := SettledProgress(c, s);
    }
  }

  lemma AggStoppedMeansReturning(c: Config, s: State)
    requires Inv(c, s)
    ensures s.aggPc.AggStopped? ==> forall j :: 0 <= j < |s.servers| ==> s.servers[j].pc.Stopped?
  {
  }

  /** The printer cannot finish before the calculators have stopped. */
  lemma FinishedMeansStopping(c: Config, s: State)
    requires Inv(c, s)
    ensures s.printer.Finished? ==> !s.main.Serving?
  {
    hide Flow, Delivered, Honest;
    if s.printer.Finished? {
      assert HonestReport(s.servers, s.reports[|s.reports| - 1]);
      assert SoundAs(c, 0, s.servers[0]);
    }
  }

  /** With calculators and handlers settled, the rest is up to printer, Run and aggregator. */
  lemma SettledProgress(c: Config, s: State) returns (e: Event)
    requires Inv(c, s) && !Settled(s) && !s.aggPc.AggReply? && s.getter.NoGetter?
    requires s.aggQueue == [] || s.aggPc.AggStopped?
    requires forall j :: 0 <= j < |s.servers| ==> ServerSettled(s.servers[j])
    requires forall i :: 0 <= i < |s.clients| ==> s.clients[i].Idle?
    ensures Enabled(c, s, e) && Internal(e)
  {
    hide Flow, Delivered, Honest;
    FinishedMeansStopping(c, s);
    if s.printer.Reading? {
      assert ServerSettled(s.servers[|s.printer.seen|]);
      e := PrinterAct(PrintRead);
    } else if s.printer.Waiting? && s.stopPrinter {
      e := PrinterAct(PrintStop);
    } else if s.main.AwaitAgg? && !s.aggPc.AggStopped? {
      e := AggAct(AggQuit);
    } else {
      assert s.main.AwaitCalc? ==> s.servers[s.main.i].closed && ServerSettled(s.servers[s.main.i]);
      e := MainAct(Defer);
    }
  }

  // ---- together ----

  /** From every good state the server settles, by internal events alone. */
  lemma Settles(c: Config, s: State) returns (events: seq<Event>)
    requires Inv(c, s)
    ensures IsRun(c, s, events) && AllInternal(events) && Settled(Execute(c, s, events))
    decreases Work(s)
  {
    hide Inv, Work, Apply, Enabled, Settled;
    events := [];
    if !Settled(s) {
      var e := Progress(c, s);
      InternalDecreases(c, s, e);
      InvKept(c, s, e);
      var rest := Settles(c, Apply(c, s, e));
      events := [e] + rest;
      assert events[1..] == rest;
    }
  }

  /** Shutdown completes: once the HTTP server has returned, every way to go on, with the scrapes and
      ticks that may still come, has a bounded number of internal events, and can only come to a
      stand after Run has returned, cleanly. */
  lemma ShutdownCompletes(c: Config, n: nat, events: seq<Event>, more: seq<Event>)
    requires c.size > 0 && IsRun(c, Init(c, n), events) && !After(c, n, events).main.Serving?
    requires IsRun(c, After(c, n, events), more)
    ensures Internals(more) <= Work(After(c, n, events)) + EXTERNAL_WORK * (|more| - Internals(more))
    ensures var t := Execute(c, After(c, n, events), more);
      (forall e :: Internal(e) ==> !Enabled(c, t, e)) ==> t.main.Returned? && CleanStop(c, t)
  {
    hide Inv, Work, Apply, Enabled, Settled, CleanStop, Init;
    Reached(c, n, events);
    var s := After(c, n, events);
    WorkBoundsRuns(c, s, more);
    RunKeepsInv(c, s, more);
    NoReturnToServing(c, s, more);
    var t := Execute(c, s, more);
    if forall e :: Internal(e) ==> !Enabled(c, t, e) {
      StuckIsReturned(c, t);
    }
  }

  lemma StuckIsReturned(c: Config, t: State)
    requires Inv(c, t) && !t.main.Serving?
    requires forall e :: Internal(e) ==> !Enabled(c, t, e)
    ensures t.main.Returned? && CleanStop(c, t)
  {
    hide Inv, Enabled;
    if !Settled(t) {
      var e := Progress(c, t);
      assert false;
    }
    ReturnedIsClean(c, t);
  }

  lemma {:induction false} NoReturnToServing(c: Config, s: State, events: seq<Event>)
    requires IsRun(c, s, events) && !s.main.Serving?
    ensures !Execute(c, s, events).main.Serving?
    decreases |events|
  {
    hide Enabled, Apply;
    if events != [] {
      StaysStopping(c, s, events[0]);
      NoReturnToServing(c, Apply(c, s, events[0]), events[1..]);
    }
  }

  lemma StaysStopping(c: Config, s: State, e: Event)
    requires Enabled(c, s, e) && !s.main.Serving?
    ensures !Apply(c, s, e).main.Serving?
  {
    hide Moved, Offer, CanMove, CanPush, Merge;
    match e
    case MainAct(me) =>
    case _ =>
  }
}
