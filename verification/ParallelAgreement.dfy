/**
 When a report of `parallel` mode that has seen equally many numbers on both sides pairs a sum with
 its negation: always, if handlers call Calculate one at a time; and for no queue size and no batch
 size, as soon as two of them can be inside it together.
 */
module ParallelAgreement {
  import opened Word64
  import opened Calculators
  import opened ServerSystem
  import opened ServerInvariant
  import opened ServerTheorems

  /** The report shows as many applications of Sum as of Sub. */
  predicate Even(report: Report) {
    |report.seen| == 2 && report.seen[0] == report.seen[1]
  }

  predicate Balanced(report: Report) {
    report.vals.sub == Wrap(-report.vals.sum)
  }

  predicate AllAgree(reports: seq<Report>) {
    forall r :: 0 <= r < |reports| && Even(reports[r]) ==> Balanced(reports[r])
  }

  /** Whatever the queue and batch sizes: that equally many applications make a report consistent
      can be relied on if and only if there is at most one handler. */
  lemma AgreeIffOneHandler(c: Config, n: nat)
    requires c.size > 0 && c.mode.ParallelMode?
    ensures (forall events :: IsRun(c, Init(c, n), events) ==> AllAgree(After(c, n, events).reports)) <==> n <= 1
  {
    hide IsRun, Init, After;
    if n <= 1 {
      forall events | IsRun(c, Init(c, n), events) ensures AllAgree(After(c, n, events).reports) {
        OneHandlerAgrees(c, n, events);
      }
    } else {
      var events, s := Disagreement(c, n);
      assert !Balanced(s.reports[0]) && Even(s.reports[0]);
    }
  }

  // ---- one handler ----

  /** What a single handler has parked between its two sends. */
  function ParkedByOnly(clients: seq<Client>): seq<int> {
    if |clients| == 1 && clients[0].Offering? && clients[0].stage >= 1 then [clients[0].num] else []
  }

  /** Sub takes over the accepted numbers in the order in which Sum did. */
  predicate InStep(s: State) {
    |s.clients| <= 1 && |s.servers| == 2 && s.accepted == Carried(s.servers[1]) + ParkedByOnly(s.clients)
  }

  lemma ClientKeepsInStep(c: Config, s: State, i: nat, ce: ClientEvent)
    requires Servers(c, s.servers) && Clients(s.clients, s.main, 2) && InStep(s) && ClientCan(c, s, i, ce)
    ensures InStep(ClientStep(c, s, i, ce))
  {
    hide Servers, Carried, Offer;
    if ce.Push? && !s.servers[s.clients[i].stage].closed {
      OfferCarries(c, s.servers, s.clients[i].stage, s.clients[i].num);
    }
  }

  lemma ServerKeepsInStep(c: Config, s: State, j: nat, move: Move)
    requires Servers(c, s.servers) && InStep(s) && ServerCan(s, j, move)
    ensures InStep(ServerStep(c, s, j, move))
  {
    hide Servers, Carried, Moved, CanMove;
    MoveCarries(c, s.servers, j, move);
  }

  lemma MoveCarries(c: Config, servers: seq<Server>, j: nat, move: Move)
    requires Servers(c, servers) && j < |servers| && CanMove(servers[j], move)
    ensures Carried(Moved(servers[j], move, c.size)) == Carried(servers[j])
  {
    hide Carried, Sound, Moved, CanMove, Extends;
    assert SoundAs(c, j, servers[j]);
    MoveIsSound(servers[j], move, c.cap, c.size);
  }

  lemma InStepKept(c: Config, s: State, e: Event)
    requires Inv(c, s) && InStep(s) && Enabled(c, s, e)
    ensures InStep(Apply(c, s, e))
  {
    hide Flow, Order, Delivered, Reports, Servers, ServerStep, ClientStep, AggStep, PrinterStep, GetterStep, InStep;
    match e
    case ClientAct(i, ce) =>
      assert |s.servers| == 2 by { InStepHas(s); }
      ClientKeepsInStep(c, s, i, ce);
    case ServerAct(j, move) => ServerKeepsInStep(c, s, j, move);
    case MainAct(me) => MainKeepsInStep(s, me);
    case _ =>
      Bystander(c, s, e);
      SameInStep(s, Apply(c, s, e));
  }

  lemma InStepHas(s: State)
    requires InStep(s)
    ensures |s.servers| == 2
  {
  }

  lemma SameInStep(s: State, t: State)
    requires InStep(s) && t.servers == s.servers && t.clients == s.clients && t.accepted == s.accepted
    ensures InStep(t)
  {
  }

  lemma MainKeepsInStep(s: State, me: MainEvent)
    requires InStep(s) && MainCan(s, me)
    ensures InStep(MainStep(s, me))
  {
  }

  lemma {:induction false} RunKeepsInStep(c: Config, s: State, events: seq<Event>)
    requires Inv(c, s) && InStep(s) && IsRun(c, s, events)
    ensures InStep(Execute(c, s, events))
    decreases |events|
  {
    hide Inv, InStep, Enabled, Apply;
    if events != [] {
      InvKept(c, s, events[0]);
      InStepKept(c, s, events[0]);
      RunKeepsInStep(c, Apply(c, s, events[0]), events[1..]);
    }
  }

  lemma InStepAgrees(c: Config, s: State, r: nat)
    requires Inv(c, s) && c.mode.ParallelMode? && InStep(s) && r < |s.reports| && Even(s.reports[r])
    ensures Balanced(s.reports[r])
  {
    ReportPairsPrefixes(c, s, r);
    hide Inv;
    var sub, m := s.servers[1], s.reports[r].seen[0];
    assert sub.applied <= Carried(sub) <= s.accepted;
    assert sub.applied[..m] == s.accepted[..m];
    WrapNegates(Sum(s.accepted[..m]));
  }

  lemma InitInStep(c: Config, n: nat)
    requires c.mode.ParallelMode? && n <= 1
    ensures InStep(Init(c, n))
  {
  }

  lemma OneHandlerAgrees(c: Config, n: nat, events: seq<Event>)
    requires c.size > 0 && c.mode.ParallelMode? && n <= 1 && IsRun(c, Init(c, n), events)
    ensures AllAgree(After(c, n, events).reports)
  {
    hide Inv, InStep, IsRun, Init, Even, Balanced;
    InitInv(c, n);
    InitInStep(c, n);
    RunKeepsInStep(c, Init(c, n), events);
    Reached(c, n, events);
    var s := After(c, n, events);
    forall r | 0 <= r < |s.reports| && Even(s.reports[r]) ensures Balanced(s.reports[r]) {
      InStepAgrees(c, s, r);
    }
  }

  // ---- two handlers ----

  lemma {:induction false} Then(c: Config, s: State, events: seq<Event>, e: Event)
    requires IsRun(c, s, events) && Enabled(c, Execute(c, s, events), e)
    ensures IsRun(c, s, events + [e])
    ensures Execute(c, s, events + [e]) == Apply(c, Execute(c, s, events), e)
    decreases |events|
  {
    if events == [] {
      assert [e][1..] == [];
      assert events + [e] == [e];
    } else {
      Then(c, Apply(c, s, events[0]), events[1..], e);
      assert (events + [e])[1..] == events[1..] + [e];
    }
  }

  /** The run reaches s. */
  predicate Reaches(c: Config, n: nat, events: seq<Event>, s: State) {
    IsRun(c, Init(c, n), events) && Execute(c, Init(c, n), events) == s
  }

  lemma Go(c: Config, n: nat, events: seq<Event>, s: State, e: Event) returns (more: seq<Event>, t: State)
    requires Reaches(c, n, events, s) && Enabled(c, s, e)
    ensures Reaches(c, n, more, t) && t == Apply(c, s, e)
  {
    Then(c, Init(c, n), events, e);
    more, t := events + [e], Apply(c, s, e);
  }

  /** Nothing but handlers and calculators has moved on. */
  predicate SameAround(s: State, t: State) {
    && t.printer == s.printer && t.reports == s.reports && t.main == s.main && t.aggPc == s.aggPc
    && |t.servers| == |s.servers| && |t.clients| == |s.clients|
  }

  /** A calculator waiting for numbers. */
  predicate Waits(sv: Server) {
    sv.pc.Select? && !sv.closed && sv.queue == []
  }

  /** Handler i's number goes to calculator j, through the queue or from hand to hand. */
  lemma Deliver(c: Config, n: nat, events: seq<Event>, s: State, i: nat, j: nat) returns (more: seq<Event>, t: State)
    requires Reaches(c, n, events, s) && i < |s.clients| && |s.servers| == 2
    requires s.clients[i].Offering? && s.clients[i].stage == j < 2 && Waits(s.servers[j])
    ensures Reaches(c, n, more, t) && SameAround(s, t) && t.aggQueue == s.aggQueue
    ensures t.servers == s.servers[j := s.servers[j].(pc := Calc(s.clients[i].num))]
    ensures t.clients == s.clients[i := if j == 0 then Offering(s.clients[i].num, 1) else Idle]
  {
    hide Reaches;
    more, t := Go(c, n, events, s, ClientAct(i, Push));
    if c.cap > 0 {
      var num := s.clients[i].num;
      assert t.servers[j] == s.servers[j].(queue := [] + [num]);
      assert [] + [num] == [num] && [num][1..] == [];
      more, t := Go(c, n, more, t, ServerAct(j, Recv));
      assert t.servers[j] == s.servers[j].(pc := Calc(num));
    }
    assert t.servers == s.servers[j := s.servers[j].(pc := Calc(s.clients[i].num))];
  }

  /** What a calculator of one operator makes of its first number, and of the batch this may fill. */
  lemma FirstApplied(sv: Server, size: nat)
    requires size > 0 && !sv.role.Both? && sv.pc.Calc? && sv.open == [] && sv.applied == []
    ensures var num, w := sv.pc.num, Moved(sv, Call(0), size);
      && IsApplied(sv, w) && w.open != [] && w.pc == (if size == 1 then Flushing else Select)
      && (size == 1 ==> IsApplied(sv, Moved(w, HandBatch, size)) && Moved(w, HandBatch, size).pc.Select?)
  {
  }

  /** The number in sv's hand has been applied. */
  predicate IsApplied(sv: Server, sv': Server)
    requires sv.pc.Calc?
  {
    && sv'.role == sv.role && sv'.closed == sv.closed && sv'.queue == sv.queue && sv'.applied == [sv.pc.num]
    && sv'.vals == if sv.role.AddOnly? then sv.vals.(sum := AddOp(sv.vals.sum, sv.pc.num))
                   else sv.vals.(sub := SubOp(sv.vals.sub, sv.pc.num))
  }

  /** Calculator j applies the number in its hand, its first, and hands over the batch if that is full. */
  lemma Process(c: Config, n: nat, events: seq<Event>, s: State, j: nat) returns (more: seq<Event>, t: State)
    requires c.size > 0 && Reaches(c, n, events, s) && j < |s.servers|
    requires !s.servers[j].role.Both? && s.servers[j].pc.Calc? && s.servers[j].open == [] && s.servers[j].applied == []
    requires s.aggQueue == [] || |s.aggQueue| == 1
    requires s.aggPc.AggSelect?
    ensures Reaches(c, n, more, t) && SameAround(s, t) && t.clients == s.clients && |t.aggQueue| <= |s.aggQueue| + 1
    ensures t.servers == s.servers[j := t.servers[j]] && t.servers[j].pc.Select? && IsApplied(s.servers[j], t.servers[j])
  {
    hide Reaches, Moved;
    FirstApplied(s.servers[j], c.size);
    more, t := Go(c, n, events, s, ServerAct(j, Call(0)));
    if c.size == 1 {
      assert t.servers[j] == Moved(s.servers[j], Call(0), c.size);
      more, t := Go(c, n, more, t, ServerAct(j, HandBatch));
    }
  }

  lemma TwoBegun(c: Config, n: nat) returns (events: seq<Event>, s: State)
    requires c.mode.ParallelMode? && n >= 2
    ensures Reaches(c, n, events, s)
    ensures s.servers == [NewServer(AddOnly), NewServer(SubOnly)] && s.printer.Waiting? && s.reports == []
    ensures |s.clients| == n && s.clients[0] == Offering(1, 0) && s.clients[1] == Offering(2, 0)
    ensures s.aggQueue == [] && s.aggPc.AggSelect?
  {
    events, s := [], Init(c, n);
    assert Reaches(c, n, events, s);
    hide Reaches;
    events, s := Go(c, n, events, s, ClientAct(0, Begin(1)));
    events, s := Go(c, n, events, s, ClientAct(1, Begin(2)));
  }

  /** The first number has been added, the report has read the sum. */
  lemma SumRead(c: Config, n: nat) returns (events: seq<Event>, s: State)
    requires c.size > 0 && c.mode.ParallelMode? && n >= 2
    ensures Reaches(c, n, events, s)
    ensures |s.servers| == 2 && Waits(s.servers[0]) && s.servers[1] == NewServer(SubOnly)
    ensures s.printer == Reading(false, Values(1, 0), [1]) && s.reports == []
    ensures |s.clients| == n && s.clients[1] == Offering(2, 0)
    ensures |s.aggQueue| <= 1 && s.aggPc.AggSelect?
  {
    hide Reaches;
    events, s := TwoBegun(c, n);
    events, s := Deliver(c, n, events, s, 0, 0);
    events, s := Process(c, n, events, s, 0);
    assert s.servers[0].vals == Values(1, 0) && s.servers[0].role == AddOnly;
    events, s := ReadSum(c, n, events, s);
  }

  lemma ReadSum(c: Config, n: nat, events: seq<Event>, s: State) returns (more: seq<Event>, t: State)
    requires Reaches(c, n, events, s) && s.printer.Waiting? && |s.servers| == 2
    requires s.servers[0].pc.Select? && s.servers[0].role.AddOnly? && |s.servers[0].applied| == 1
    ensures Reaches(c, n, more, t)
    ensures t == s.(printer := Reading(false, Values(s.servers[0].vals.sum, 0), [1]))
  {
    hide Reaches;
    more, t := Go(c, n, events, s, PrinterAct(PrintTick));
    more, t := Go(c, n, more, t, PrinterAct(PrintRead));
    assert [] + [1] == [1];
  }

  lemma ReadSub(c: Config, n: nat, events: seq<Event>, s: State) returns (more: seq<Event>, t: State)
    requires Reaches(c, n, events, s) && |s.servers| == 2 && s.reports == []
    requires s.printer == Reading(false, Values(1, 0), [1])
    requires s.servers[1].pc.Select? && s.servers[1].role.SubOnly? && |s.servers[1].applied| == 1
    ensures Reaches(c, n, more, t) && t.reports == [Report(false, Values(1, s.servers[1].vals.sub), [1, 1])]
  {
    hide Reaches;
    assert [1] + [1] == [1, 1];
    more, t := Go(c, n, events, s, PrinterAct(PrintRead));
  }

  /** With two handlers, for every queue and batch size, some run reports sum 1 and sub -2 after one
      application on each side. */
  lemma Disagreement(c: Config, n: nat) returns (events: seq<Event>, s: State)
    requires c.size > 0 && c.mode.ParallelMode? && n >= 2
    ensures IsRun(c, Init(c, n), events) && After(c, n, events) == s
    ensures s.reports == [Report(false, Values(1, -2), [1, 1])]
  {
    events, s := SubReady(c, n);
    events, s := ReadSub(c, n, events, s);
  }

  /** The second number has overtaken the first on its way to Sub. */
  lemma SubReady(c: Config, n: nat) returns (events: seq<Event>, s: State)
    requires c.size > 0 && c.mode.ParallelMode? && n >= 2
    ensures Reaches(c, n, events, s)
    ensures |s.servers| == 2 && s.reports == [] && s.printer == Reading(false, Values(1, 0), [1])
    ensures s.servers[1].pc.Select? && s.servers[1].role.SubOnly?
    ensures |s.servers[1].applied| == 1 && s.servers[1].vals == Values(0, -2)
  {
    hide Reaches;
    events, s := SumRead(c, n);
    events, s := Deliver(c, n, events, s, 1, 0);
    events, s := Deliver(c, n, events, s, 1, 1);
    assert s.servers[1].pc == Calc(2);
    events, s := Process(c, n, events, s, 1);
  }
}
