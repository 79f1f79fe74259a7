/**
 The inductive invariant of ServerSystem, one conjunct at a time: each predicate below holds
 initially and is kept by every event.
 */
module ServerInvariant {
  import opened Word64
  import opened Counting
  import opened Calculators
  import opened ServerSystem

  // ---- servers ----

  predicate Servers(c: Config, servers: seq<Server>) {
    && c.size > 0
    && |servers| == |Roles(c.mode)|
    && forall j :: 0 <= j < |servers| ==> SoundAs(c, j, servers[j])
  }

  predicate SoundAs(c: Config, j: nat, sv: Server) {
    j < |Roles(c.mode)| && sv.role == Roles(c.mode)[j] && Sound(sv, c.cap, c.size)
  }

  predicate ExtendsAll(servers: seq<Server>, servers': seq<Server>) {
    && |servers'| == |servers|
    && forall j :: 0 <= j < |servers| ==> Extends(servers[j], servers'[j])
  }

  /** No application is undone. */
  predicate AppliedGrows(servers: seq<Server>, servers': seq<Server>) {
    && |servers'| == |servers|
    && forall j :: 0 <= j < |servers| ==> servers[j].role == servers'[j].role && servers[j].applied <= servers'[j].applied
  }

  lemma Replace(c: Config, servers: seq<Server>, j: nat, sv: Server)
    requires Servers(c, servers) && j < |servers| && SoundAs(c, j, sv)
    ensures Servers(c, servers[j := sv])
    ensures Extends(servers[j], sv) ==> ExtendsAll(servers, servers[j := sv])
  {
  }

  /** A push keeps the servers sound, and no event undoes an application. */
  lemma PushKeepsServers(c: Config, servers: seq<Server>, j: nat, num: int)
    requires Servers(c, servers) && j < |servers| && !servers[j].closed && CanPush(c.cap, servers[j])
    ensures var servers' := servers[j := Offer(servers[j], num, c.cap)];
      Servers(c, servers') && ExtendsAll(servers, servers')
  {
    assert SoundAs(c, j, servers[j]);
    OfferIsSound(servers[j], num, c.cap, c.size);
    Replace(c, servers, j, Offer(servers[j], num, c.cap));
  }

  lemma MoveKeepsServers(c: Config, servers: seq<Server>, j: nat, move: Move)
    requires Servers(c, servers) && j < |servers| && CanMove(servers[j], move)
    ensures var servers' := servers[j := Moved(servers[j], move, c.size)];
      Servers(c, servers') && ExtendsAll(servers, servers')
  {
    assert SoundAs(c, j, servers[j]);
    MoveIsSound(servers[j], move, c.cap, c.size);
    Replace(c, servers, j, Moved(servers[j], move, c.size));
  }

  lemma CloseKeepsServers(c: Config, servers: seq<Server>, j: nat)
    requires Servers(c, servers) && j < |servers|
    ensures Servers(c, servers[j := servers[j].(closed := true)])
  {
    assert SoundAs(c, j, servers[j]);
    Replace(c, servers, j, servers[j].(closed := true));
  }

  /** Printer, aggregator and getter touch neither servers nor handlers. */
  lemma Bystander(c: Config, s: State, e: Event)
    requires Enabled(c, s, e) && (e.PrinterAct? || e.AggAct? || e.GetterAct?)
    ensures var t := Apply(c, s, e);
      && t.servers == s.servers && t.clients == s.clients && t.accepted == s.accepted
      && (!e.AggAct? ==> t.recorded == s.recorded && t.aggQueue == s.aggQueue)
  {
    hide PrinterStep, AggStep, GetterStep, PrinterCan, AggCan, GetterCan;
  }

  lemma ClientKeepsServers(c: Config, s: State, i: nat, ce: ClientEvent)
    requires Servers(c, s.servers) && ClientCan(c, s, i, ce)
    ensures Servers(c, ClientStep(c, s, i, ce).servers) && ExtendsAll(s.servers, ClientStep(c, s, i, ce).servers)
  {
    if ce.Push? && !s.servers[s.clients[i].stage].closed {
      PushKeepsServers(c, s.servers, s.clients[i].stage, s.clients[i].num);
    }
  }

  lemma ServerKeepsServers(c: Config, s: State, j: nat, move: Move)
    requires Servers(c, s.servers) && ServerCan(s, j, move)
    ensures Servers(c, ServerStep(c, s, j, move).servers) && ExtendsAll(s.servers, ServerStep(c, s, j, move).servers)
  {
    MoveKeepsServers(c, s.servers, j, move);
  }

  lemma MainKeepsServers(c: Config, s: State, me: MainEvent)
    requires Servers(c, s.servers) && MainCan(s, me)
    ensures Servers(c, MainStep(s, me).servers)
    ensures !s.main.CloseCalc? ==> ExtendsAll(s.servers, MainStep(s, me).servers)
    ensures AppliedGrows(s.servers, MainStep(s, me).servers)
  {
    hide Servers, ExtendsAll;
    var t := MainStep(s, me);
    if me.Defer? && s.main.CloseCalc? {
      CloseKeepsServers(c, s.servers, s.main.i);
      assert t.servers == s.servers || t.servers == s.servers[s.main.i := s.servers[s.main.i].(closed := true)];
    } else {
      assert t.servers == s.servers;
      SameExtends(s.servers);
    }
  }

  lemma SameExtends(servers: seq<Server>)
    ensures ExtendsAll(servers, servers)
  {
  }

  /** Every event keeps servers sound and what they applied; all but the close of a number channel
      only let servers move on. */
  lemma ServersKept(c: Config, s: State, e: Event)
    requires Servers(c, s.servers) && Enabled(c, s, e)
    ensures Servers(c, Apply(c, s, e).servers)
    ensures !(e.MainAct? && s.main.CloseCalc?) ==> ExtendsAll(s.servers, Apply(c, s, e).servers)
    ensures AppliedGrows(s.servers, Apply(c, s, e).servers)
  {
    hide Servers, ClientStep, ServerStep, MainStep, PrinterStep, AggStep, GetterStep;
    match e
    case ClientAct(i, ce) => ClientKeepsServers(c, s, i, ce);
    case ServerAct(j, move) => ServerKeepsServers(c, s, j, move);
    case MainAct(me) => MainKeepsServers(c, s, me);
    case _ => Bystander(c, s, e);
  }

  // ---- where every accepted number is ----

  /** What a handler has parked in front of server j: accepted by Sum, not yet by j. */
  function ParkedBy(client: Client, j: nat, p: Probe): nat {
    if client.Offering? && 1 <= client.stage <= j then Hit(p, client.num) else 0
  }

  function Parked(clients: seq<Client>, j: nat, p: Probe): nat {
    if clients == [] then 0
    else Parked(clients[..|clients| - 1], j, p) + ParkedBy(clients[|clients| - 1], j, p)
  }

  lemma {:induction false} ParkedUpdate(clients: seq<Client>, i: nat, client: Client, j: nat, p: Probe)
    requires i < |clients|
    ensures Parked(clients[i := client], j, p) + ParkedBy(clients[i], j, p) ==
            Parked(clients, j, p) + ParkedBy(client, j, p)
  {
    var last := |clients| - 1;
    if i < last {
      ParkedUpdate(clients[..last], i, client, j, p);
      assert clients[i := client][..last] == clients[..last][i := client];
    } else {
      assert clients[i := client][..last] == clients[..last];
    }
  }

  lemma {:induction false} NoneParked(clients: seq<Client>, j: nat, p: Probe)
    requires forall i :: 0 <= i < |clients| ==> clients[i].Idle?
    ensures Parked(clients, j, p) == 0
  {
    if clients != [] {
      NoneParked(clients[..|clients| - 1], j, p);
    }
  }

  /** Handlers are inside Calculate only while the HTTP server runs. */
  predicate Clients(clients: seq<Client>, main: Main, k: nat) {
    forall i :: 0 <= i < |clients| && clients[i].Offering? ==> main.Serving? && clients[i].stage < k
  }

  lemma ClientsKept(c: Config, s: State, e: Event)
    requires s.servers != [] && Clients(s.clients, s.main, |s.servers|) && Enabled(c, s, e)
    ensures Clients(Apply(c, s, e).clients, Apply(c, s, e).main, |s.servers|)
  {
    hide ServerStep, ServerCan;
    match e
    case ClientAct(i, ce) => hide CanPush, Offer;
    case ServerAct(j, move) => assert Apply(c, s, e).clients == s.clients;
    case MainAct(me) =>
    case _ => Bystander(c, s, e);
  }

  /** Counting any number: what server sv carries and what is parked in front of it are together
      what was accepted. */
  ghost predicate CarriesAccepted(sv: Server, j: nat, clients: seq<Client>, accepted: seq<int>) {
    forall p :: Count(Carried(sv), p) + Parked(clients, j, p) == Count(accepted, p)
  }

  ghost predicate Flow(servers: seq<Server>, clients: seq<Client>, accepted: seq<int>) {
    && (servers != [] ==> Carried(servers[0]) == accepted)
    && forall j :: 0 <= j < |servers| ==> CarriesAccepted(servers[j], j, clients, accepted)
  }

  lemma SameCarried(servers: seq<Server>, j: nat, sv: Server, clients: seq<Client>, accepted: seq<int>)
    requires Flow(servers, clients, accepted) && j < |servers| && Carried(sv) == Carried(servers[j])
    ensures Flow(servers[j := sv], clients, accepted)
  {
    assert CarriesAccepted(servers[j], j, clients, accepted);
  }

  /** A step of handler i that leaves what it has parked as it was. */
  lemma SameParked(servers: seq<Server>, clients: seq<Client>, i: nat, client: Client, accepted: seq<int>)
    requires Flow(servers, clients, accepted) && i < |clients|
    requires clients[i].Offering? ==> clients[i].stage == 0
    requires client.Offering? ==> client.stage == 0
    ensures Flow(servers, clients[i := client], accepted)
  {
    forall j | 0 <= j < |servers| ensures CarriesAccepted(servers[j], j, clients[i := client], accepted) {
      assert CarriesAccepted(servers[j], j, clients, accepted);
      forall p ensures Parked(clients[i := client], j, p) == Parked(clients, j, p) {
        ParkedUpdate(clients, i, client, j, p);
      }
    }
  }

  /** The bookkeeping of one push to server j, seen from server m. */
  lemma PushMoves(carried: seq<int>, m: nat, j: nat, k: nat, clients: seq<Client>, i: nat, num: int,
                  accepted: seq<int>, p: Probe)
    requires i < |clients| && clients[i] == Offering(num, j) && m < k && j < k
    requires Count(carried, p) + Parked(clients, m, p) == Count(accepted, p)
    ensures Count(if m == j then carried + [num] else carried, p)
            + Parked(clients[i := if j + 1 < k then Offering(num, j + 1) else Idle], m, p)
            == Count(if j == 0 then accepted + [num] else accepted, p)
  {
    var next := if j + 1 < k then Offering(num, j + 1) else Idle;
    ParkedUpdate(clients, i, next, m, p);
    CountAppend(carried, num, p);
    CountAppend(accepted, num, p);
  }

  /** Server j takes over what handler i offers it. */
  lemma PushedFlow(servers: seq<Server>, j: nat, sv: Server, clients: seq<Client>, i: nat, num: int, accepted: seq<int>)
    requires Flow(servers, clients, accepted) && j < |servers| && Carried(sv) == Carried(servers[j]) + [num]
    requires i < |clients| && clients[i] == Offering(num, j)
    ensures Flow(servers[j := sv], clients[i := if j + 1 < |servers| then Offering(num, j + 1) else Idle],
                 if j == 0 then accepted + [num] else accepted)
  {
    hide Carried;
    var clients' := clients[i := if j + 1 < |servers| then Offering(num, j + 1) else Idle];
    var accepted' := if j == 0 then accepted + [num] else accepted;
    forall m | 0 <= m < |servers| ensures CarriesAccepted(if m == j then sv else servers[m], m, clients', accepted') {
      assert CarriesAccepted(servers[m], m, clients, accepted);
      forall p ensures Count(Carried(if m == j then sv else servers[m]), p) + Parked(clients', m, p) == Count(accepted', p) {
        PushMoves(Carried(servers[m]), m, j, |servers|, clients, i, num, accepted, p);
      }
    }
  }

  lemma OfferCarries(c: Config, servers: seq<Server>, j: nat, num: int)
    requires Servers(c, servers) && j < |servers| && !servers[j].closed && CanPush(c.cap, servers[j])
    ensures Carried(Offer(servers[j], num, c.cap)) == Carried(servers[j]) + [num]
  {
    hide Sound, Carried, Offer, Extends;
    assert SoundAs(c, j, servers[j]);
    OfferIsSound(servers[j], num, c.cap, c.size);
  }

  lemma PushKeepsFlow(c: Config, s: State, i: nat)
    requires Servers(c, s.servers) && Flow(s.servers, s.clients, s.accepted) && ClientCan(c, s, i, Push)
    requires !s.servers[s.clients[i].stage].closed
    ensures var t := ClientStep(c, s, i, Push); Flow(t.servers, t.clients, t.accepted)
  {
    var num, j := s.clients[i].num, s.clients[i].stage;
    hide Flow, Servers, Carried, Offer, CanMove, Parked, Count, CarriesAccepted, SoundAs;
    var t := ClientStep(c, s, i, Push);
    assert t.servers == s.servers[j := Offer(s.servers[j], num, c.cap)];
    assert t.clients == s.clients[i := if j + 1 < |s.servers| then Offering(num, j + 1) else Idle];
    assert t.accepted == if j == 0 then s.accepted + [num] else s.accepted;
    hide ClientStep;
    OfferCarries(c, s.servers, j, num);
    PushedFlow(s.servers, j, Offer(s.servers[j], num, c.cap), s.clients, i, num, s.accepted);
  }

  lemma MoveKeepsFlow(c: Config, s: State, j: nat, move: Move)
    requires Servers(c, s.servers) && Flow(s.servers, s.clients, s.accepted) && ServerCan(s, j, move)
    ensures Flow(s.servers[j := Moved(s.servers[j], move, c.size)], s.clients, s.accepted)
  {
    assert SoundAs(c, j, s.servers[j]);
    MoveIsSound(s.servers[j], move, c.cap, c.size);
    SameCarried(s.servers, j, Moved(s.servers[j], move, c.size), s.clients, s.accepted);
  }

  lemma ClientKeepsFlow(c: Config, s: State, i: nat, ce: ClientEvent)
    requires Servers(c, s.servers) && Flow(s.servers, s.clients, s.accepted) && ClientCan(c, s, i, ce)
    ensures var t := ClientStep(c, s, i, ce); Flow(t.servers, t.clients, t.accepted)
  {
    match ce
    case Begin(num) => SameParked(s.servers, s.clients, i, Offering(num, 0), s.accepted);
    case Reject => SameParked(s.servers, s.clients, i, Idle, s.accepted);
    case Push =>
      if !s.servers[s.clients[i].stage].closed {
        PushKeepsFlow(c, s, i);
      }
  }

  lemma CloseKeepsFlow(s: State, me: MainEvent)
    requires Flow(s.servers, s.clients, s.accepted) && MainCan(s, me)
    ensures var t := MainStep(s, me); Flow(t.servers, t.clients, t.accepted)
  {
    if me.Defer? && s.main.CloseCalc? {
      SameCarried(s.servers, s.main.i, s.servers[s.main.i].(closed := true), s.clients, s.accepted);
    }
  }

  lemma FlowKept(c: Config, s: State, e: Event)
    requires Servers(c, s.servers) && Flow(s.servers, s.clients, s.accepted) && Enabled(c, s, e)
    ensures var t := Apply(c, s, e); Flow(t.servers, t.clients, t.accepted)
  {
    hide Flow, Servers, ClientStep, MainStep, PrinterStep, AggStep, GetterStep, Moved;
    match e
    case ClientAct(i, ce) => ClientKeepsFlow(c, s, i, ce);
    case ServerAct(j, move) => MoveKeepsFlow(c, s, j, move);
    case MainAct(me) => CloseKeepsFlow(s, me);
    case _ => Bystander(c, s, e);
  }

  // ---- the shutdown order ----

  /** How many calculators Run has closed, and waited for, by now. */
  function ClosedCount(main: Main, k: nat): nat {
    match main
    case Serving => 0
    case CloseCalc(i) => i
    case AwaitCalc(i) => i + 1
    case _ => k
  }

  function StoppedCount(main: Main, k: nat): nat {
    match main
    case Serving => 0
    case CloseCalc(i) => i
    case AwaitCalc(i) => i
    case _ => k
  }

  predicate PastPrinter(main: Main) {
    main.StopAgg? || main.AwaitAgg? || main.Returned?
  }

  predicate CalculatorsOrdered(servers: seq<Server>, main: Main) {
    && ((main.CloseCalc? || main.AwaitCalc?) ==> main.i < |servers|)
    && forall j :: 0 <= j < |servers| ==>
         && (servers[j].closed <==> j < ClosedCount(main, |servers|))
         && (j < StoppedCount(main, |servers|) ==> servers[j].pc.Stopped?)
  }

  predicate OthersOrdered(s: State) {
    && (s.stopPrinter <==> s.main.AwaitPrinter? || PastPrinter(s.main))
    && (PastPrinter(s.main) ==> s.printer.Finished?)
    && (s.aggStop <==> s.main.AwaitAgg? || s.main.Returned?)
    && (s.aggPc.AggStopped? ==> s.aggStop)
    && (s.main.Returned? ==> s.aggPc.AggStopped?)
    && (s.aggPc.AggReply? <==> s.getter.Awaiting?)
    && !s.panicked
  }

  /** Calculators stop one by one, then the printer, then the aggregator; no channel is closed
      twice or sent on after its close. */
  predicate Order(s: State) {
    CalculatorsOrdered(s.servers, s.main) && OthersOrdered(s)
  }

  lemma ClientKeepsOrder(c: Config, s: State, i: nat, ce: ClientEvent)
    requires Servers(c, s.servers) && Clients(s.clients, s.main, |s.servers|) && Order(s) && ClientCan(c, s, i, ce)
    ensures Order(ClientStep(c, s, i, ce))
  {
    if ce.Push? {
      var j := s.clients[i].stage;
      assert SoundAs(c, j, s.servers[j]) && !s.servers[j].closed;
      OfferIsSound(s.servers[j], s.clients[i].num, c.cap, c.size);
    }
  }

  lemma ServerKeepsOrder(c: Config, s: State, j: nat, move: Move)
    requires Servers(c, s.servers) && Order(s) && ServerCan(s, j, move)
    ensures Order(ServerStep(c, s, j, move)) && !s.aggPc.AggStopped?
  {
    assert SoundAs(c, j, s.servers[j]);
    MoveIsSound(s.servers[j], move, c.cap, c.size);
  }

  lemma MainKeepsOrder(c: Config, s: State, me: MainEvent)
    requires Servers(c, s.servers) && Order(s) && MainCan(s, me)
    ensures Order(MainStep(s, me))
  {
    assert |s.servers| > 0;
    hide Servers;
    match me
    case HttpReturn => ReturnKeepsOrder(s);
    case Defer => if s.main.CloseCalc? { CloseKeepsOrder(s); } else { DeferKeepsOrder(s); }
  }

  lemma ReturnKeepsOrder(s: State)
    requires Order(s) && |s.servers| > 0 && s.main.Serving?
    ensures Order(s.(main := CloseCalc(0)))
  {
  }

  lemma CloseKeepsOrder(s: State)
    requires Order(s) && s.main.CloseCalc? && MainCan(s, Defer)
    ensures Order(MainStep(s, Defer))
  {
    assert !s.servers[s.main.i].closed;
  }

  /** The steps of the shutdown that wait, and those that stop printer and aggregator. */
  lemma DeferKeepsOrder(s: State)
    requires Order(s) && !s.main.CloseCalc? && MainCan(s, Defer)
    ensures Order(MainStep(s, Defer))
  {
  }

  lemma OrderKept(c: Config, s: State, e: Event)
    requires Servers(c, s.servers) && Clients(s.clients, s.main, |s.servers|) && Order(s) && Enabled(c, s, e)
    ensures Order(Apply(c, s, e))
  {
    hide Servers, Clients, Order, ClientStep, ServerStep, MainStep, PrinterStep, AggStep, GetterStep;
    match e
    case ClientAct(i, ce) => ClientKeepsOrder(c, s, i, ce);
    case ServerAct(j, move) => ServerKeepsOrder(c, s, j, move);
    case MainAct(me) => MainKeepsOrder(c, s, me);
    case PrinterAct(pe) => PrinterKeepsOrder(s, pe);
    case AggAct(ae) => AggKeepsOrder(s, ae);
    case GetterAct(ge) => GetterKeepsOrder(s, ge);
  }

  lemma PrinterKeepsOrder(s: State, pe: PrinterEvent)
    requires Order(s) && PrinterCan(s, pe)
    ensures Order(PrinterStep(s, pe))
  {
    hide Merge;
  }

  lemma AggKeepsOrder(s: State, ae: AggEvent)
    requires Order(s) && AggCan(s, ae)
    ensures Order(AggStep(s, ae))
  {
  }

  lemma GetterKeepsOrder(s: State, ge: GetterEvent)
    requires Order(s) && GetterCan(s, ge)
    ensures Order(GetterStep(s, ge))
  {
  }

  // ---- metric batches between the servers and the aggregator ----

  /** The batches that came from server j, in order. */
  function FromServer(batches: seq<Batch>, j: nat): seq<seq<int>> {
    if batches == [] then []
    else
      var last := batches[|batches| - 1];
      FromServer(batches[..|batches| - 1], j) + (if last.server == j then [last.samples] else [])
  }

  lemma FromServerAppend(batches: seq<Batch>, batch: Batch, j: nat)
    ensures FromServer(batches + [batch], j) ==
            FromServer(batches, j) + (if batch.server == j then [batch.samples] else [])
  {
    assert (batches + [batch])[..|batches|] == batches;
  }

  /** Recorded and still queued batches are exactly the handed ones: none lost, doubled or
      reordered on the way. */
  predicate Delivered(servers: seq<Server>, recorded: seq<Batch>, queue: seq<Batch>) {
    && |queue| <= AGG_QUEUE
    && forall j :: 0 <= j < |servers| ==> FromServer(recorded + queue, j) == servers[j].handed
  }

  lemma HandKeepsDelivered(servers: seq<Server>, servers': seq<Server>, recorded: seq<Batch>, queue: seq<Batch>, j: nat)
    requires Delivered(servers, recorded, queue) && |queue| < AGG_QUEUE && j < |servers|
    requires |servers'| == |servers|
    requires forall m :: 0 <= m < |servers| ==>
      servers'[m].handed == if m == j then servers[m].handed + [servers[m].open] else servers[m].handed
    ensures Delivered(servers', recorded, queue + [Batch(j, servers[j].open)])
  {
    var batch := Batch(j, servers[j].open);
    assert recorded + (queue + [batch]) == recorded + queue + [batch];
    forall m | 0 <= m < |servers| ensures FromServer(recorded + (queue + [batch]), m) == servers'[m].handed {
      FromServerAppend(recorded + queue, batch, m);
    }
  }

  lemma MoveKeepsDelivered(c: Config, s: State, j: nat, move: Move)
    requires Servers(c, s.servers) && Delivered(s.servers, s.recorded, s.aggQueue) && ServerCan(s, j, move)
    ensures var t := ServerStep(c, s, j, move); Delivered(t.servers, t.recorded, t.aggQueue)
  {
    assert SoundAs(c, j, s.servers[j]);
    MoveIsSound(s.servers[j], move, c.cap, c.size);
    if move.HandBatch? && !s.aggPc.AggStopped? {
      HandKeepsDelivered(s.servers, ServerStep(c, s, j, move).servers, s.recorded, s.aggQueue, j);
    }
  }

  lemma PushKeepsDelivered(c: Config, s: State, i: nat, ce: ClientEvent)
    requires Delivered(s.servers, s.recorded, s.aggQueue) && ClientCan(c, s, i, ce)
    ensures var t := ClientStep(c, s, i, ce); Delivered(t.servers, t.recorded, t.aggQueue)
  {
  }

  lemma TakeKeepsDelivered(s: State, ae: AggEvent)
    requires Delivered(s.servers, s.recorded, s.aggQueue) && AggCan(s, ae)
    ensures var t := AggStep(s, ae); Delivered(t.servers, t.recorded, t.aggQueue)
  {
    if ae.AggTake? {
      assert (s.recorded + [s.aggQueue[0]]) + s.aggQueue[1..] == s.recorded + s.aggQueue;
    }
  }

  lemma CloseKeepsDelivered(s: State, me: MainEvent)
    requires Delivered(s.servers, s.recorded, s.aggQueue) && MainCan(s, me)
    ensures var t := MainStep(s, me); Delivered(t.servers, t.recorded, t.aggQueue)
  {
  }

  lemma DeliveredKept(c: Config, s: State, e: Event)
    requires Servers(c, s.servers) && Delivered(s.servers, s.recorded, s.aggQueue) && Enabled(c, s, e)
    ensures var t := Apply(c, s, e); Delivered(t.servers, t.recorded, t.aggQueue)
  {
    hide Delivered, Servers, ClientStep, ServerStep, PrinterStep, AggStep, GetterStep;
    match e
    case ClientAct(i, ce) => PushKeepsDelivered(c, s, i, ce);
    case ServerAct(j, move) => MoveKeepsDelivered(c, s, j, move);
    case AggAct(ae) => TakeKeepsDelivered(s, ae);
    case MainAct(me) => CloseKeepsDelivered(s, me);
    case _ => Bystander(c, s, e);
  }

  // ---- what the printer reports ----

  predicate HonestPart(sv: Server, vals: Values, n: nat) {
    && n <= |sv.applied|
    && (sv.role != SubOnly ==> vals.sum == Fold(sv.applied[..n]).sum)
    && (sv.role != AddOnly ==> vals.sub == Fold(sv.applied[..n]).sub)
  }

  /** The values read are those after `seen[j]` applications on server j. */
  predicate Honest(servers: seq<Server>, vals: Values, seen: seq<nat>) {
    && |seen| <= |servers|
    && forall j :: 0 <= j < |seen| ==> HonestPart(servers[j], vals, seen[j])
  }

  /** Observation a is no later than observation b on any server both have read. */
  predicate NoLater(a: seq<nat>, b: seq<nat>) {
    forall j :: 0 <= j < |a| && j < |b| ==> a[j] <= b[j]
  }

  /** The observation was made after the servers stopped and has seen all they applied. */
  predicate Complete(servers: seq<Server>, seen: seq<nat>) {
    && |seen| <= |servers|
    && forall j :: 0 <= j < |seen| ==> servers[j].pc.Stopped? && seen[j] == |servers[j].applied|
  }

  predicate HonestReport(servers: seq<Server>, report: Report) {
    && |report.seen| == |servers|
    && Honest(servers, report.vals, report.seen)
    && (report.final ==> Complete(servers, report.seen))
  }

  /** The last report, and only the last, is the final one, once the printer has finished. */
  predicate FinalIsLast(reports: seq<Report>, printer: Printer) {
    && (printer.Finished? ==> reports != [])
    && forall r :: 0 <= r < |reports| ==> (reports[r].final <==> printer.Finished? && r == |reports| - 1)
  }

  predicate ReadingOk(servers: seq<Server>, reports: seq<Report>, printer: Printer) {
    printer.Reading? ==>
      && |printer.seen| < |servers|
      && Honest(servers, printer.got, printer.seen)
      && (forall r :: 0 <= r < |reports| ==> NoLater(reports[r].seen, printer.seen))
      && (printer.final ==> Complete(servers, printer.seen))
  }

  predicate Reports(servers: seq<Server>, reports: seq<Report>, printer: Printer) {
    && (forall r :: 0 <= r < |reports| ==> HonestReport(servers, reports[r]))
    && (forall q, r :: 0 <= q < r < |reports| ==> NoLater(reports[q].seen, reports[r].seen))
    && FinalIsLast(reports, printer)
    && ReadingOk(servers, reports, printer)
  }

  lemma HonestKept(servers: seq<Server>, servers': seq<Server>, vals: Values, seen: seq<nat>)
    requires ExtendsAll(servers, servers') && Honest(servers, vals, seen)
    ensures Honest(servers', vals, seen)
  {
    forall j | 0 <= j < |seen| ensures HonestPart(servers'[j], vals, seen[j]) {
      assert HonestPart(servers[j], vals, seen[j]);
      assert Extends(servers[j], servers'[j]);
      assert servers'[j].applied[..seen[j]] == servers[j].applied[..seen[j]];
    }
  }

  lemma CompleteKept(servers: seq<Server>, servers': seq<Server>, seen: seq<nat>)
    requires ExtendsAll(servers, servers') && Complete(servers, seen)
    ensures Complete(servers', seen)
  {
    forall j | 0 <= j < |seen| ensures servers'[j].pc.Stopped? && seen[j] == |servers'[j].applied| {
      assert Extends(servers[j], servers'[j]);
    }
  }

  lemma ServersMoveOn(servers: seq<Server>, servers': seq<Server>, reports: seq<Report>, printer: Printer)
    requires ExtendsAll(servers, servers') && Reports(servers, reports, printer)
    ensures Reports(servers', reports, printer)
  {
    forall r | 0 <= r < |reports| ensures HonestReport(servers', reports[r]) {
      assert HonestReport(servers, reports[r]);
      HonestKept(servers, servers', reports[r].vals, reports[r].seen);
      if reports[r].final {
        CompleteKept(servers, servers', reports[r].seen);
      }
    }
    if printer.Reading? {
      HonestKept(servers, servers', printer.got, printer.seen);
      if printer.final {
        CompleteKept(servers, servers', printer.seen);
      }
    }
  }

  /** Closing a channel changes no total. */
  lemma CloseKeepsReports(servers: seq<Server>, j: nat, reports: seq<Report>, printer: Printer)
    requires j < |servers| && Reports(servers, reports, printer)
    ensures Reports(servers[j := servers[j].(closed := true)], reports, printer)
  {
    var servers' := servers[j := servers[j].(closed := true)];
    assert forall vals, seen :: Honest(servers, vals, seen) ==> Honest(servers', vals, seen) by {
      forall vals, seen | Honest(servers, vals, seen) ensures Honest(servers', vals, seen) {
        forall m | 0 <= m < |seen| ensures HonestPart(servers'[m], vals, seen[m]) {
          assert HonestPart(servers[m], vals, seen[m]);
        }
      }
    }
    forall r | 0 <= r < |reports| ensures HonestReport(servers', reports[r]) {
      assert HonestReport(servers, reports[r]);
    }
  }

  /** A Values call reads at most one sum and one sub, so what it got before stays honest. */
  lemma MergeIsHonest(c: Config, servers: seq<Server>, got: Values, seen: seq<nat>)
    requires Servers(c, servers) && |seen| < |servers| && Honest(servers, got, seen)
    requires servers[|seen|].pc.Select? || servers[|seen|].pc.Stopped?
    ensures var sv := servers[|seen|]; Honest(servers, Merge(sv.role, got, sv.vals), seen + [|sv.applied|])
  {
    var j := |seen|;
    var sv := servers[j];
    assert SoundAs(c, j, sv);
    assert sv.applied[..|sv.applied|] == sv.applied;
    var got' := Merge(sv.role, got, sv.vals);
    forall m | 0 <= m <= j ensures HonestPart(servers[m], got', (seen + [|sv.applied|])[m]) {
      if m < j {
        assert HonestPart(servers[m], got, seen[m]);
        assert SoundAs(c, m, servers[m]);
      }
    }
  }

  /** What is read now is no older than what any earlier report shows. */
  lemma ReadIsLater(servers: seq<Server>, reports: seq<Report>, printer: Printer)
    requires Reports(servers, reports, printer) && printer.Reading? && |printer.seen| < |servers|
    ensures forall r :: 0 <= r < |reports| ==>
      NoLater(reports[r].seen, printer.seen + [|servers[|printer.seen|].applied|])
  {
    var j := |printer.seen|;
    forall r | 0 <= r < |reports| ensures NoLater(reports[r].seen, printer.seen + [|servers[j].applied|]) {
      assert HonestReport(servers, reports[r]);
      assert HonestPart(servers[j], reports[r].vals, reports[r].seen[j]);
      assert NoLater(reports[r].seen, printer.seen);
    }
  }

  lemma ReadKeepsReports(c: Config, s: State)
    requires Servers(c, s.servers) && Order(s) && Reports(s.servers, s.reports, s.printer) && PrinterCan(s, PrintRead)
    requires s.printer.final ==> s.servers[|s.printer.seen|].pc.Stopped?
    ensures var t := PrinterStep(s, PrintRead); Reports(t.servers, t.reports, t.printer)
  {
    var sv, printer := s.servers[|s.printer.seen|], s.printer;
    var seen, got := printer.seen + [|sv.applied|], Merge(sv.role, printer.got, sv.vals);
    hide Order, Honest, Merge, NoLater;
    MergeIsHonest(c, s.servers, printer.got, printer.seen);
    ReadIsLater(s.servers, s.reports, printer);
    assert printer.final ==> Complete(s.servers, seen);
    hide Servers, Complete;
    if |seen| < |s.servers| {
      assert PrinterStep(s, PrintRead).printer == printer.(got := got, seen := seen);
      PartRead(s.servers, s.reports, printer, got, seen);
    } else {
      AllRead(s.servers, s.reports, printer, got, seen);
    }
  }

  lemma PartRead(servers: seq<Server>, reports: seq<Report>, printer: Printer, got: Values, seen: seq<nat>)
    requires Reports(servers, reports, printer) && printer.Reading? && |seen| < |servers|
    requires Honest(servers, got, seen) && (printer.final ==> Complete(servers, seen))
    requires forall r :: 0 <= r < |reports| ==> NoLater(reports[r].seen, seen)
    ensures Reports(servers, reports, printer.(got := got, seen := seen))
  {
    hide HonestReport, Honest, Complete, NoLater;
  }

  lemma AllRead(servers: seq<Server>, reports: seq<Report>, printer: Printer, got: Values, seen: seq<nat>)
    requires Reports(servers, reports, printer) && printer.Reading? && |seen| == |servers|
    requires Honest(servers, got, seen) && (printer.final ==> Complete(servers, seen))
    requires forall r :: 0 <= r < |reports| ==> NoLater(reports[r].seen, seen)
    ensures Reports(servers, reports + [Report(printer.final, got, seen)], if printer.final then Finished else Waiting)
  {
    hide Honest, Complete, NoLater;
  }

  lemma PrinterKeepsReports(c: Config, s: State, pe: PrinterEvent)
    requires Servers(c, s.servers) && Order(s) && Reports(s.servers, s.reports, s.printer) && PrinterCan(s, pe)
    requires s.printer.Reading? && s.printer.final ==> s.stopPrinter
    ensures var t := PrinterStep(s, pe); Reports(t.servers, t.reports, t.printer)
  {
    if pe.PrintRead? {
      assert s.stopPrinter ==> s.servers[|s.printer.seen|].pc.Stopped?;
      ReadKeepsReports(c, s);
    }
  }

  lemma MainKeepsReports(s: State, me: MainEvent)
    requires Reports(s.servers, s.reports, s.printer) && MainCan(s, me)
    ensures var t := MainStep(s, me); Reports(t.servers, t.reports, t.printer)
  {
    if me.Defer? && s.main.CloseCalc? {
      CloseKeepsReports(s.servers, s.main.i, s.reports, s.printer);
    }
  }

  lemma ReportsLeft(c: Config, s: State, e: Event)
    requires Enabled(c, s, e) && !e.PrinterAct?
    ensures Apply(c, s, e).reports == s.reports && Apply(c, s, e).printer == s.printer
  {
    hide ClientStep, ServerStep, MainStep, AggStep, GetterStep;
    hide ClientCan, ServerCan, MainCan, AggCan, GetterCan;
  }

  lemma ReportsKept(c: Config, s: State, e: Event)
    requires Servers(c, s.servers) && Order(s) && Reports(s.servers, s.reports, s.printer) && Enabled(c, s, e)
    requires s.printer.Reading? && s.printer.final ==> s.stopPrinter
    ensures var t := Apply(c, s, e); Reports(t.servers, t.reports, t.printer)
  {
    hide Servers, Order, Reports, ClientStep, ServerStep, MainStep, PrinterStep, AggStep, GetterStep;
    match e
    case PrinterAct(pe) => PrinterKeepsReports(c, s, pe);
    case MainAct(me) => MainKeepsReports(s, me);
    case _ =>
      ServersKept(c, s, e);
      ReportsLeft(c, s, e);
      ServersMoveOn(s.servers, Apply(c, s, e).servers, s.reports, s.printer);
  }

  // ---- all together ----

  ghost predicate Inv(c: Config, s: State) {
    && Servers(c, s.servers)
    && Clients(s.clients, s.main, |s.servers|)
    && Flow(s.servers, s.clients, s.accepted)
    && Order(s)
    && Delivered(s.servers, s.recorded, s.aggQueue)
    && Reports(s.servers, s.reports, s.printer)
    && (s.printer.Reading? && s.printer.final ==> s.stopPrinter)
  }

  lemma InitInv(c: Config, n: nat)
    requires c.size > 0
    ensures Inv(c, Init(c, n))
  {
    var s := Init(c, n);
    forall j | 0 <= j < |s.servers|
      ensures CarriesAccepted(s.servers[j], j, s.clients, s.accepted) && SoundAs(c, j, s.servers[j])
    {
      NewIsSound(Roles(c.mode)[j], c.cap, c.size);
      forall p ensures Parked(s.clients, j, p) == 0 {
        NoneParked(s.clients, j, p);
      }
    }
    hide Sound, CarriesAccepted;
  }

  lemma InvKept(c: Config, s: State, e: Event)
    requires Inv(c, s) && Enabled(c, s, e)
    ensures Inv(c, Apply(c, s, e))
  {
    ServersKept(c, s, e);
    ClientsKept(c, s, e);
    FlowKept(c, s, e);
    OrderKept(c, s, e);
    DeliveredKept(c, s, e);
    ReportsKept(c, s, e);
    FinalReadKept(c, s, e);
  }

  lemma FinalReadKept(c: Config, s: State, e: Event)
    requires Enabled(c, s, e) && (s.printer.Reading? && s.printer.final ==> s.stopPrinter)
    ensures var t := Apply(c, s, e); t.printer.Reading? && t.printer.final ==> t.stopPrinter
  {
    hide Moved, Offer, CanMove, CanPush, Merge;
    match e
    case PrinterAct(pe) =>
    case MainAct(me) =>
    case _ =>
  }

  /** Safety over whole runs rests on this: every run from a good state ends in a good state. */
  lemma {:induction false} RunKeepsInv(c: Config, s: State, events: seq<Event>)
    requires Inv(c, s) && IsRun(c, s, events)
    ensures Inv(c, Execute(c, s, events))
    decreases |events|
  {
    if events != [] {
      InvKept(c, s, events[0]);
      RunKeepsInv(c, Apply(c, s, events[0]), events[1..]);
    }
  }
}
