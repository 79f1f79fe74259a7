/**
 When the channel operations of the `async` and `parallel` server go through, wait, or are refused,
 in terms of what is in the channels: in every state of every run.
 */
module ServerChannels {
  import opened Calculators
  import opened ServerSystem
  import opened ServerInvariant
  import opened ServerTheorems

  /** Calculate, at its first send: with a buffer the number is taken if and only if the buffer has
      room, and ErrOverloaded is the answer if and only if it is full, never both; without a buffer
      there is no such answer, and the handler waits for the calculator's select. */
  lemma OverloadedIffFull(c: Config, n: nat, events: seq<Event>, i: nat)
    requires c.size > 0 && IsRun(c, Init(c, n), events)
    requires var s := After(c, n, events);
      i < |s.clients| && s.clients[i].Offering? && s.clients[i].stage == 0
    ensures var s := After(c, n, events);
      && |s.servers| > 0
      && (c.cap > 0 ==>
            && |s.servers[0].queue| <= c.cap
            && (Enabled(c, s, ClientAct(i, Reject)) <==> |s.servers[0].queue| == c.cap)
            && (Enabled(c, s, ClientAct(i, Push)) <==> |s.servers[0].queue| < c.cap))
      && (c.cap == 0 ==>
            && !Enabled(c, s, ClientAct(i, Reject))
            && (Enabled(c, s, ClientAct(i, Push)) <==> s.servers[0].pc.Select?))
  {
    hide Inv, IsRun, Init;
    Reached(c, n, events);
    OpenWhileOffering(c, After(c, n, events), i);
  }

  /** Calculate, at the second send of Parallel: it waits for room, and is never refused. */
  lemma SecondSendWaits(c: Config, n: nat, events: seq<Event>, i: nat)
    requires c.size > 0 && IsRun(c, Init(c, n), events)
    requires var s := After(c, n, events);
      i < |s.clients| && s.clients[i].Offering? && s.clients[i].stage > 0
    ensures var s := After(c, n, events);
      && |s.servers| == 2 && s.clients[i].stage == 1
      && !Enabled(c, s, ClientAct(i, Reject))
      && (Enabled(c, s, ClientAct(i, Push)) <==>
            if c.cap > 0 then |s.servers[1].queue| < c.cap else s.servers[1].pc.Select?)
  {
    hide Inv, IsRun, Init;
    Reached(c, n, events);
    OpenWhileOffering(c, After(c, n, events), i);
  }

  /** While a handler is inside Calculate no number channel is closed. */
  lemma OpenWhileOffering(c: Config, s: State, i: nat)
    requires Inv(c, s) && i < |s.clients| && s.clients[i].Offering?
    ensures 0 < |s.servers| <= 2 && s.clients[i].stage < |s.servers|
    ensures forall j :: 0 <= j < |s.servers| ==> !s.servers[j].closed && |s.servers[j].queue| <= c.cap
  {
    hide Flow, Delivered, Reports;
    forall j | 0 <= j < |s.servers| ensures !s.servers[j].closed && |s.servers[j].queue| <= c.cap {
      assert SoundAs(c, j, s.servers[j]);
    }
  }

  /** Nobody is refused by a calculator without a queue. */
  lemma {:induction false} UnbufferedNeverRefuses(c: Config, s: State, events: seq<Event>)
    requires c.cap == 0 && s.rejected == [] && IsRun(c, s, events)
    ensures Execute(c, s, events).rejected == []
    decreases |events|
  {
    if events != [] {
      var e := events[0];
      assert Apply(c, s, e).rejected == [] by {
        hide ServerStep, MainStep, PrinterStep, AggStep, GetterStep, CanPush, Offer;
        match e
        case ClientAct(i, ce) => assert !ce.Reject?;
        case _ =>
      }
      hide Apply, Enabled;
      UnbufferedNeverRefuses(c, Apply(c, s, e), events[1..]);
    }
  }

  lemma NoQueueNoOverload(c: Config, n: nat, events: seq<Event>)
    requires c.cap == 0 && IsRun(c, Init(c, n), events)
    ensures After(c, n, events).rejected == []
  {
    UnbufferedNeverRefuses(c, Init(c, n), events);
  }

  /** The calculator's select: a number when one is queued, the timer when a batch is open, the end
      when the channel is closed and drained; and nothing of this anywhere but at the select. */
  lemma SelectChoices(c: Config, s: State, j: nat)
    requires Inv(c, s) && j < |s.servers|
    ensures var sv := s.servers[j];
      && (Enabled(c, s, ServerAct(j, Recv)) <==> sv.pc == Select && |sv.queue| > 0)
      && (Enabled(c, s, ServerAct(j, Expire)) <==> sv.pc == Select && |sv.open| > 0)
      && (Enabled(c, s, ServerAct(j, Quit)) <==> sv.pc == Select && sv.closed && |sv.queue| == 0)
  {
    hide Flow, Order, Delivered, Reports, Folded, Batched, Drained;
    assert SoundAs(c, j, s.servers[j]);
  }

  /** The printer hears the stop exactly between two reports and only after every calculator has
      stopped; the aggregator exactly at its select and only after the printer has finished. It does
      so whether or not batches are still queued: those are dropped. */
  lemma StopsAreHeard(c: Config, s: State)
    requires Inv(c, s)
    ensures Enabled(c, s, PrinterAct(PrintStop)) <==> s.printer == Waiting && s.main == AwaitPrinter
    ensures Enabled(c, s, AggAct(AggQuit)) <==> s.aggPc == AggSelect && s.main == AwaitAgg
  {
    hide Servers, Flow, Delivered, Reports;
  }

  // ---- the channel to the aggregator ----

  /** No more than its buffer is ever in it. */
  lemma {:induction false} AggQueueIsBounded(c: Config, s: State, events: seq<Event>)
    requires |s.aggQueue| <= AGG_QUEUE && Inv(c, s) && IsRun(c, s, events)
    ensures |Execute(c, s, events).aggQueue| <= AGG_QUEUE
    decreases |events|
  {
    hide Inv;
    if events != [] {
      var e := events[0];
      AggQueueStep(c, s, e);
      InvKept(c, s, e);
      hide Apply, Enabled;
      AggQueueIsBounded(c, Apply(c, s, e), events[1..]);
    }
  }

  lemma AggQueueStep(c: Config, s: State, e: Event)
    requires |s.aggQueue| <= AGG_QUEUE && Inv(c, s) && Enabled(c, s, e)
    ensures |Apply(c, s, e).aggQueue| <= AGG_QUEUE
  {
    hide ClientStep, MainStep, PrinterStep, GetterStep, ClientCan, MainCan, PrinterCan, GetterCan;
    match e
    case ServerAct(j, move) =>
      hide Moved, CanMove;
      if move.HandBatch? {
        HandOverWaits(c, s, j);
      }
    case AggAct(ae) => hide Inv;
    case _ => hide Inv;
  }

  /** recordFn: a calculator with a batch to hand over goes on if and only if the aggregator's channel
      has room; the aggregator is still there to make some. */
  lemma HandOverWaits(c: Config, s: State, j: nat)
    requires Inv(c, s) && j < |s.servers|
    ensures s.servers[j].pc.Stopped? || !s.aggPc.AggStopped?
    ensures var sv := s.servers[j];
      Enabled(c, s, ServerAct(j, HandBatch)) <==>
        (sv.pc == Flushing || sv.pc == Exiting) && |sv.open| > 0 && |s.aggQueue| < AGG_QUEUE
  {
    hide Flow, Delivered, Reports, Servers;
    assert s.aggPc.AggStopped? ==> s.servers[j].pc.Stopped?;
  }

  /** In every run: at most 100 batches wait for the aggregator, and a hand-over waits exactly while
      there are 100. */
  lemma HandOverWaitsIffFull(c: Config, n: nat, events: seq<Event>, j: nat)
    requires c.size > 0 && IsRun(c, Init(c, n), events) && j < |After(c, n, events).servers|
    requires var sv := After(c, n, events).servers[j]; sv.pc == Flushing || (sv.pc == Exiting && |sv.open| > 0)
    ensures var s := After(c, n, events);
      && |s.aggQueue| <= AGG_QUEUE
      && (!Enabled(c, s, ServerAct(j, HandBatch)) <==> |s.aggQueue| == AGG_QUEUE)
  {
    hide Inv, IsRun;
    InitInv(c, n);
    Reached(c, n, events);
    AggQueueIsBounded(c, Init(c, n), events);
    HandOverWaits(c, After(c, n, events), j);
    FlushingHasBatch(c, After(c, n, events), j);
  }

  lemma FlushingHasBatch(c: Config, s: State, j: nat)
    requires Inv(c, s) && j < |s.servers|
    ensures s.servers[j].pc == Flushing ==> |s.servers[j].open| > 0
  {
    hide Flow, Order, Delivered, Reports, Folded, Batched, Drained;
    assert SoundAs(c, j, s.servers[j]);
  }
}
