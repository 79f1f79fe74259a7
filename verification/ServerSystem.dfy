/**
 The whole server in `async` and `parallel` mode as one step system: any number of HTTP
 handlers inside Calculate, the calculator goroutines, the periodic printer, the metrics
 aggregator, one snapshot getter, and the deferred shutdown of `servers.Run`.

 A run is any interleaving of events. The Go runtime's random choice in `select` is the choice
 of the next event. A send on (or close of) a closed channel sets `panicked`.
 */
module ServerSystem {
  import opened Word64
  import opened Calculators

  /** aggregatorQueueSize */
  const AGG_QUEUE: nat := 100

  datatype Mode = AsyncMode | ParallelMode

  /** `cap` is the queue size of every number channel (0 makes it a rendezvous), `size` the
      batch pool's batch size. */
  datatype Config = Config(mode: Mode, cap: nat, size: nat)

  function Roles(mode: Mode): seq<Role> {
    match mode
    case AsyncMode => [Both]
    case ParallelMode => [AddOnly, SubOnly]
  }

  /** An HTTP handler. `Offering(num, 0)` has not been accepted yet; `Offering(num, 1)` is a
      Parallel handler parked between its two sends: Sum has the number, Sub does not. */
  datatype Client = Idle | Offering(num: int, stage: nat)

  /** The printer goroutine; `Reading` is inside calc.Values(), with `seen[j]` the number of
      applications behind the value already received from server j. */
  datatype Printer = Waiting | Reading(final: bool, got: Values, seen: seq<nat>) | Finished

  datatype Report = Report(final: bool, vals: Values, seen: seq<nat>)

  /** Run: serving, then its defers, last pushed first: calculator, printer, aggregator. */
  datatype Main = Serving | CloseCalc(i: nat) | AwaitCalc(i: nat)
                | StopPrinter | AwaitPrinter | StopAgg | AwaitAgg | Returned

  datatype Batch = Batch(server: nat, samples: seq<int>)

  datatype AggPc = AggSelect | AggReply | AggStopped

  /** The one goroutine that holds snapMu, inside getSnapshot. */
  datatype Getter = NoGetter | Asking | Awaiting | InCallback

  /** `offered`, `accepted`, `rejected`: the numbers handlers entered Calculate with, those the first
      calculator took, and those a full queue turned away. */
  datatype State = State(
    servers: seq<Server>,
    clients: seq<Client>,
    offered: seq<int>,
    accepted: seq<int>,
    rejected: seq<int>,
    printer: Printer,
    stopPrinter: bool,
    reports: seq<Report>,
    main: Main,
    aggPc: AggPc,
    aggStop: bool,
    aggQueue: seq<Batch>,
    recorded: seq<Batch>,
    getter: Getter,
    panicked: bool)

  function NewServers(roles: seq<Role>): (servers: seq<Server>)
    ensures |servers| == |roles|
    ensures forall j :: 0 <= j < |roles| ==> servers[j] == NewServer(roles[j])
  {
    seq(|roles|, j requires 0 <= j < |roles| => NewServer(roles[j]))
  }

  /** The state after the start of a server that will see n concurrent handlers. */
  function Init(c: Config, n: nat): State {
    State(NewServers(Roles(c.mode)), seq(n, _ => Idle), [], [], [],
          Waiting, false, [], Serving, AggSelect, false, [], [], NoGetter, false)
  }

  // ---- events, by the goroutine that acts ----

  /** A handler enters Calculate; its send goes through; a full queue turns it away. */
  datatype ClientEvent = Begin(num: int) | Push | Reject

  /** The ticker, the stop channel, one receive inside Values. */
  datatype PrinterEvent = PrintTick | PrintStop | PrintRead

  /** The HTTP server returns; the next deferred action of Run. */
  datatype MainEvent = HttpReturn | Defer

  /** Take a batch, take a snapshot request, answer it, stop. */
  datatype AggEvent = AggTake | AggAsk | AggAnswer | AggQuit

  /** Lock snapMu; find the aggregator done; unlock. */
  datatype GetterEvent = GetBegin | GetDone | GetEnd

  datatype Event = ClientAct(i: nat, ce: ClientEvent) | ServerAct(j: nat, move: Move)
                 | PrinterAct(pe: PrinterEvent) | MainAct(me: MainEvent)
                 | AggAct(ae: AggEvent) | GetterAct(ge: GetterEvent)

  /** A blocking send to server sv can go ahead (on a closed channel it panics). */
  predicate CanPush(cap: nat, sv: Server) {
    sv.closed || (if cap > 0 then |sv.queue| < cap else sv.pc.Select?)
  }

  predicate ClientCan(c: Config, s: State, i: nat, e: ClientEvent) {
    && i < |s.clients|
    && match e
       case Begin(_) => s.clients[i].Idle? && s.main.Serving?
       case Push =>
         && s.clients[i].Offering? && s.clients[i].stage < |s.servers|
         && CanPush(c.cap, s.servers[s.clients[i].stage])
       case Reject =>
         && s.clients[i].Offering? && s.clients[i].stage == 0 && 0 < |s.servers|
         && c.cap > 0 && !CanPush(c.cap, s.servers[0])
  }

  predicate ServerCan(s: State, j: nat, move: Move) {
    && j < |s.servers| && CanMove(s.servers[j], move)
    && (move.HandBatch? ==> s.aggPc.AggStopped? || |s.aggQueue| < AGG_QUEUE)
  }

  predicate PrinterCan(s: State, e: PrinterEvent) {
    match e
    case PrintTick => s.printer.Waiting?
    case PrintStop => s.printer.Waiting? && s.stopPrinter
    case PrintRead =>
      && s.printer.Reading? && |s.printer.seen| < |s.servers|
      && (s.servers[|s.printer.seen|].pc.Select? || s.servers[|s.printer.seen|].pc.Stopped?)
  }

  predicate MainCan(s: State, e: MainEvent) {
    match e
    case HttpReturn => s.main.Serving? && forall i :: 0 <= i < |s.clients| ==> s.clients[i].Idle?
    case Defer =>
      match s.main
      case CloseCalc(i) => i < |s.servers|
      case AwaitCalc(i) => i < |s.servers| && s.servers[i].pc.Stopped?
      case StopPrinter => true
      case AwaitPrinter => s.printer.Finished?
      case StopAgg => true
      case AwaitAgg => s.aggPc.AggStopped?
      case _ => false
  }

  predicate AggCan(s: State, e: AggEvent) {
    match e
    case AggTake => s.aggPc.AggSelect? && s.aggQueue != []
    case AggAsk => s.aggPc.AggSelect? && s.getter.Asking?
    case AggAnswer => s.aggPc.AggReply? && s.getter.Awaiting?
    case AggQuit => s.aggPc.AggSelect? && s.aggStop
  }

  predicate GetterCan(s: State, e: GetterEvent) {
    match e
    case GetBegin => s.getter.NoGetter?
    case GetDone => s.getter.Asking? && s.aggPc.AggStopped?
    case GetEnd => s.getter.InCallback?
  }

  // Every step function says which parts of the state are its goroutine's to change.

  function ClientStep(c: Config, s: State, i: nat, e: ClientEvent): (t: State)
    requires ClientCan(c, s, i, e)
    ensures t == s.(servers := t.servers, clients := t.clients, offered := t.offered,
                    accepted := t.accepted, rejected := t.rejected, panicked := t.panicked)
  {
    match e
    case Begin(num) => s.(clients := s.clients[i := Offering(num, 0)], offered := s.offered + [num])
    case Reject => s.(clients := s.clients[i := Idle], rejected := s.rejected + [s.clients[i].num])
    case Push =>
      var num, j := s.clients[i].num, s.clients[i].stage;
      if s.servers[j].closed then s.(panicked := true)
      else s.(servers := s.servers[j := Offer(s.servers[j], num, c.cap)],
              clients := s.clients[i := if j + 1 < |s.servers| then Offering(num, j + 1) else Idle],
              accepted := if j == 0 then s.accepted + [num] else s.accepted)
  }

  function ServerStep(c: Config, s: State, j: nat, move: Move): (t: State)
    requires ServerCan(s, j, move)
    ensures t == s.(servers := t.servers, aggQueue := t.aggQueue, panicked := t.panicked)
  {
    if move.HandBatch? && s.aggPc.AggStopped? then s.(panicked := true)
    else s.(servers := s.servers[j := Moved(s.servers[j], move, c.size)],
            aggQueue := if move.HandBatch? then s.aggQueue + [Batch(j, s.servers[j].open)] else s.aggQueue)
  }

  /** What one receive adds to the pair being read. */
  function Merge(role: Role, got: Values, vals: Values): Values {
    match role
    case Both => vals
    case AddOnly => got.(sum := vals.sum)
    case SubOnly => got.(sub := vals.sub)
  }

  function PrinterStep(s: State, e: PrinterEvent): (t: State)
    requires PrinterCan(s, e)
    ensures t == s.(printer := t.printer, reports := t.reports)
  {
    match e
    case PrintTick => s.(printer := Reading(false, ZERO, []))
    case PrintStop => s.(printer := Reading(true, ZERO, []))
    case PrintRead =>
      var sv := s.servers[|s.printer.seen|];
      var got := Merge(sv.role, s.printer.got, sv.vals);
      var seen := s.printer.seen + [|sv.applied|];
      if |seen| < |s.servers| then s.(printer := s.printer.(got := got, seen := seen))
      else s.(printer := if s.printer.final then Finished else Waiting,
              reports := s.reports + [Report(s.printer.final, got, seen)])
  }

  function MainStep(s: State, e: MainEvent): (t: State)
    requires MainCan(s, e)
    ensures t == s.(servers := t.servers, main := t.main, stopPrinter := t.stopPrinter,
                    aggStop := t.aggStop, panicked := t.panicked)
  {
    match e
    case HttpReturn => s.(main := CloseCalc(0))
    case Defer =>
      match s.main
      case CloseCalc(i) =>
        if s.servers[i].closed then s.(panicked := true)
        else s.(servers := s.servers[i := s.servers[i].(closed := true)], main := AwaitCalc(i))
      case AwaitCalc(i) => s.(main := if i + 1 < |s.servers| then CloseCalc(i + 1) else StopPrinter)
      case StopPrinter => if s.stopPrinter then s.(panicked := true) else s.(stopPrinter := true, main := AwaitPrinter)
      case AwaitPrinter => s.(main := StopAgg)
      case StopAgg => if s.aggStop then s.(panicked := true) else s.(aggStop := true, main := AwaitAgg)
      case AwaitAgg => s.(main := Returned)
  }

  function AggStep(s: State, e: AggEvent): (t: State)
    requires AggCan(s, e)
    ensures t == s.(aggPc := t.aggPc, aggQueue := t.aggQueue, recorded := t.recorded, getter := t.getter)
  {
    match e
    case AggTake => s.(aggQueue := s.aggQueue[1..], recorded := s.recorded + [s.aggQueue[0]])
    case AggAsk => s.(aggPc := AggReply, getter := Awaiting)
    case AggAnswer => s.(aggPc := AggSelect, getter := InCallback)
    case AggQuit => s.(aggPc := AggStopped)
  }

  function GetterStep(s: State, e: GetterEvent): (t: State)
    requires GetterCan(s, e)
    ensures t == s.(getter := t.getter)
  {
    match e
    case GetBegin => s.(getter := Asking)
    case GetDone => s.(getter := InCallback)
    case GetEnd => s.(getter := NoGetter)
  }

  predicate Enabled(c: Config, s: State, e: Event) {
    match e
    case ClientAct(i, ce) => ClientCan(c, s, i, ce)
    case ServerAct(j, move) => ServerCan(s, j, move)
    case PrinterAct(pe) => PrinterCan(s, pe)
    case MainAct(me) => MainCan(s, me)
    case AggAct(ae) => AggCan(s, ae)
    case GetterAct(ge) => GetterCan(s, ge)
  }

  function Apply(c: Config, s: State, e: Event): State
    requires Enabled(c, s, e)
  {
    match e
    case ClientAct(i, ce) => ClientStep(c, s, i, ce)
    case ServerAct(j, move) => ServerStep(c, s, j, move)
    case PrinterAct(pe) => PrinterStep(s, pe)
    case MainAct(me) => MainStep(s, me)
    case AggAct(ae) => AggStep(s, ae)
    case GetterAct(ge) => GetterStep(s, ge)
  }

  // ---- runs ----

  /** The events can all happen, one after the other, from s. */
  predicate IsRun(c: Config, s: State, events: seq<Event>)
    decreases |events|
  {
    events == [] || (Enabled(c, s, events[0]) && IsRun(c, Apply(c, s, events[0]), events[1..]))
  }

  function Execute(c: Config, s: State, events: seq<Event>): State
    requires IsRun(c, s, events)
    decreases |events|
  {
    if events == [] then s else Execute(c, Apply(c, s, events[0]), events[1..])
  }

  /** Everything that does not come from outside: all but a new request, a metrics scrape, a
      tick of the printer's ticker, and the return of the HTTP server. */
  predicate Internal(e: Event) {
    match e
    case ClientAct(_, ce) => !ce.Begin?
    case PrinterAct(pe) => !pe.PrintTick?
    case MainAct(me) => !me.HttpReturn?
    case GetterAct(ge) => !ge.GetBegin?
    case _ => true
  }
}
