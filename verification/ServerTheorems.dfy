/**
 What holds of every run of the `async` and `parallel` server: conservation of accepted numbers,
 exact totals at rest, bounded lag, honest reports, a safe shutdown with an exact final report,
 no deadlock, and a measure that bounds how long the server can work without new input.
 */
module ServerTheorems {
  import opened Sequences
  import opened Word64
  import opened Counting
  import opened Calculators
  import opened ServerSystem
  import opened ServerInvariant
  import opened ServerOffers

  /** The state after a run of the given events, n handlers, from the start. */
  function After(c: Config, n: nat, events: seq<Event>): State
    requires IsRun(c, Init(c, n), events)
  {
    Execute(c, Init(c, n), events)
  }

  lemma Reached(c: Config, n: nat, events: seq<Event>)
    requires c.size > 0 && IsRun(c, Init(c, n), events)
    ensures Inv(c, After(c, n, events))
  {
    InitInv(c, n);
    RunKeepsInv(c, Init(c, n), events);
  }

  // ---- conservation ----

  /** Whatever the interleaving: the first calculator carries exactly the accepted numbers in
      acceptance order, and every calculator carries, counting each number x, the accepted ones
      but for those whose handlers are parked in front of it; that is, of the offered numbers, those
      neither rejected nor undecided nor parked. */
  lemma AcceptedIsConserved(c: Config, n: nat, events: seq<Event>, j: nat, x: int)
    requires c.size > 0 && IsRun(c, Init(c, n), events) && j < |Roles(c.mode)|
    ensures var s := After(c, n, events);
      && |s.servers| == |Roles(c.mode)|
      && Carried(s.servers[0]) == s.accepted
      && multiset(Carried(s.servers[j]))[x] + Parked(s.clients, j, Only(x)) == multiset(s.accepted)[x]
      && |Carried(s.servers[j])| + Parked(s.clients, j, Any) == |s.accepted|
      && multiset(Carried(s.servers[j]))[x] + Parked(s.clients, j, Only(x))
         + multiset(s.rejected)[x] + Undecided(s.clients, Only(x)) == multiset(s.offered)[x]
  {
    OfferedIsDecided(c, n, events, x);
    Reached(c, n, events);
    var s := After(c, n, events);
    assert CarriesAccepted(s.servers[j], j, s.clients, s.accepted);
    CountIsMultiplicity(Carried(s.servers[j]), x);
    CountIsMultiplicity(s.accepted, x);
    CountAll(Carried(s.servers[j]));
    CountAll(s.accepted);
  }

  /** The totals as Values() would read them from servers at rest. */
  function Totals(servers: seq<Server>): Values
    requires servers != []
  {
    Values(servers[0].vals.sum, servers[|servers| - 1].vals.sub)
  }

  /** No handler is parked and no calculator has a number queued or in hand. */
  predicate AtRest(s: State) {
    && (forall i :: 0 <= i < |s.clients| ==> s.clients[i].Idle?)
    && forall j :: 0 <= j < |s.servers| ==> s.servers[j].queue == [] && InHand(s.servers[j]) == []
  }

  lemma RestedServer(c: Config, s: State, j: nat)
    requires Inv(c, s) && AtRest(s) && j < |s.servers|
    ensures multiset(s.servers[j].applied) == multiset(s.accepted)
    ensures s.servers[j].vals == RoleFold(s.servers[j].role, s.accepted)
  {
    var sv := s.servers[j];
    assert SoundAs(c, j, sv);
    assert CarriesAccepted(sv, j, s.clients, s.accepted);
    assert Carried(sv) == sv.applied;
    forall p ensures Count(sv.applied, p) == Count(s.accepted, p) {
      NoneParked(s.clients, j, p);
    }
    EqualCounts(sv.applied, s.accepted);
    FoldOfPermutation(sv.applied, s.accepted);
  }

  /** At rest the totals are the wrapped sum and its negation, in whatever two orders the
      calculators applied the numbers. */
  lemma TotalsAtRest(c: Config, s: State)
    requires Inv(c, s) && AtRest(s)
    ensures s.servers != []
    ensures Totals(s.servers) == Values(Wrap(Sum(s.accepted)), Wrap(-Sum(s.accepted)))
  {
    RestedServer(c, s, 0);
    RestedServer(c, s, |s.servers| - 1);
    assert SoundAs(c, 0, s.servers[0]) && SoundAs(c, |s.servers| - 1, s.servers[|s.servers| - 1]);
    FoldIsWrappedSum(s.accepted);
  }

  /** In `parallel` mode Sum runs ahead of Sub by at most a full queue, the number in hand and
      one parked number a handler; Sub runs ahead of Sum by at most a full queue and one. */
  lemma BoundedLag(c: Config, n: nat, events: seq<Event>)
    requires c.size > 0 && c.mode.ParallelMode? && IsRun(c, Init(c, n), events)
    ensures var s := After(c, n, events);
      && |s.servers| == 2
      && |s.servers[0].applied| - |s.servers[1].applied| <= c.cap + 1 + Parked(s.clients, 1, Any)
      && |s.servers[1].applied| - |s.servers[0].applied| <= c.cap + 1
  {
    hide Inv, IsRun, Init, Carried;
    Reached(c, n, events);
    var s := After(c, n, events);
    AcceptedIsConserved(c, n, events, 0, 0);
    AcceptedIsConserved(c, n, events, 1, 0);
    CarriedIsBounded(c, s, 0);
    CarriedIsBounded(c, s, 1);
  }

  /** Besides what it applied a calculator carries a full queue and one number at most. */
  lemma CarriedIsBounded(c: Config, s: State, j: nat)
    requires Inv(c, s) && j < |s.servers|
    ensures |s.servers[j].applied| <= |Carried(s.servers[j])| <= |s.servers[j].applied| + c.cap + 1
  {
    hide Flow, Order, Delivered, Reports, Folded, Batched, Timed, Drained;
    assert SoundAs(c, j, s.servers[j]);
  }

  // ---- reports ----

  /** In `async` mode every reported pair is the pair of totals after some prefix of the
      accepted numbers, in acceptance order: never torn, so sub is the negated sum. Later
      reports show later prefixes. */
  lemma AsyncLinearises(c: Config, n: nat, events: seq<Event>, q: nat, r: nat)
    requires c.size > 0 && c.mode.AsyncMode? && IsRun(c, Init(c, n), events)
    requires q <= r < |After(c, n, events).reports|
    ensures var s := After(c, n, events);
      && |s.reports[q].seen| == |s.reports[r].seen| == 1
      && s.reports[q].seen[0] <= s.reports[r].seen[0] <= |s.accepted|
      && s.reports[r].vals == Fold(s.accepted[..s.reports[r].seen[0]])
      && s.reports[r].vals.sub == Wrap(-s.reports[r].vals.sum)
  {
    hide Inv, IsRun, Init, Fold;
    Reached(c, n, events);
    AsyncReport(c, After(c, n, events), q, r);
  }

  lemma AsyncReport(c: Config, s: State, q: nat, r: nat)
    requires Inv(c, s) && c.mode.AsyncMode? && q <= r < |s.reports|
    ensures |s.reports[q].seen| == |s.reports[r].seen| == 1
    ensures s.reports[q].seen[0] <= s.reports[r].seen[0] <= |s.accepted|
    ensures s.reports[r].vals == Fold(s.accepted[..s.reports[r].seen[0]])
    ensures s.reports[r].vals.sub == Wrap(-s.reports[r].vals.sum)
  {
    hide CarriesAccepted, Order, Delivered, Fold, Batched, Timed, Drained;
    var sv := s.servers[0];
    assert SoundAs(c, 0, sv);
    assert HonestReport(s.servers, s.reports[q]) && HonestReport(s.servers, s.reports[r]);
    var m := s.reports[r].seen[0];
    assert HonestPart(sv, s.reports[r].vals, m);
    assert NoLater(s.reports[q].seen, s.reports[r].seen);
    assert sv.applied <= Carried(sv) == s.accepted;
    assert sv.applied[..m] == s.accepted[..m];
    FoldIsBalanced(s.accepted[..m]);
  }

  /** In `parallel` mode every report pairs the sum of a prefix of the accepted numbers with the
      negated sum of a prefix of what Sub applied, which are accepted numbers too; later reports
      show later prefixes of both. The pair is exact as soon as it covers all accepted numbers. */
  lemma ParallelReports(c: Config, n: nat, events: seq<Event>, q: nat, r: nat)
    requires c.size > 0 && c.mode.ParallelMode? && IsRun(c, Init(c, n), events)
    requires q <= r < |After(c, n, events).reports|
    ensures var s := After(c, n, events);
      && |s.servers| == |s.reports[q].seen| == |s.reports[r].seen| == 2
      && multiset(s.servers[1].applied) <= multiset(s.accepted)
      && PairsPrefixes(s, s.reports[r])
      && NoLater(s.reports[q].seen, s.reports[r].seen)
      && (s.reports[r].seen == [|s.accepted|, |s.accepted|] ==>
            s.reports[r].vals == Values(Wrap(Sum(s.accepted)), Wrap(-Sum(s.accepted))))
  {
    hide Inv, Init, IsRun, NoLater;
    Reached(c, n, events);
    var s := After(c, n, events);
    ReportsInOrder(c, s, q, r);
    ReportPairsPrefixes(c, s, q);
    ReportPairsPrefixes(c, s, r);
    SubAppliesAccepted(c, s);
    if s.reports[r].seen == [|s.accepted|, |s.accepted|] {
      CoversAll(s, s.reports[r]);
    }
  }

  predicate PairsPrefixes(s: State, report: Report) {
    && |report.seen| == |s.servers| == 2
    && report.seen[0] <= |s.accepted| && report.seen[1] <= |s.servers[1].applied|
    && report.vals.sum == Wrap(Sum(s.accepted[..report.seen[0]]))
    && report.vals.sub == Wrap(-Sum(s.servers[1].applied[..report.seen[1]]))
  }

  lemma ReportsInOrder(c: Config, s: State, q: nat, r: nat)
    requires Inv(c, s) && q <= r < |s.reports|
    ensures NoLater(s.reports[q].seen, s.reports[r].seen)
  {
    hide Servers, Flow, Order, Delivered;
    assert HonestReport(s.servers, s.reports[q]);
  }

  lemma ReportPairsPrefixes(c: Config, s: State, r: nat)
    requires Inv(c, s) && c.mode.ParallelMode? && r < |s.reports|
    ensures PairsPrefixes(s, s.reports[r])
  {
    hide CarriesAccepted;
    var sum, sub := s.servers[0], s.servers[1];
    var report := s.reports[r];
    assert SoundAs(c, 0, sum) && SoundAs(c, 1, sub);
    assert HonestReport(s.servers, report);
    assert HonestPart(sum, report.vals, report.seen[0]) && HonestPart(sub, report.vals, report.seen[1]);
    assert sum.applied <= Carried(sum) == s.accepted;
    assert sum.applied[..report.seen[0]] == s.accepted[..report.seen[0]];
    FoldIsWrappedSum(sum.applied[..report.seen[0]]);
    FoldIsWrappedSum(sub.applied[..report.seen[1]]);
  }

  lemma SubAppliesAccepted(c: Config, s: State)
    requires Inv(c, s) && c.mode.ParallelMode?
    ensures |s.servers| == 2 && multiset(s.servers[1].applied) <= multiset(s.accepted)
  {
    var sub := s.servers[1];
    assert CarriesAccepted(sub, 1, s.clients, s.accepted);
    forall x ensures multiset(sub.applied)[x] <= multiset(s.accepted)[x] {
      CountIsMultiplicity(sub.applied, x);
      CountIsMultiplicity(s.accepted, x);
      CountConcat(sub.applied, InHand(sub) + sub.queue, Only(x));
    }
  }

  /** A part of a multiset that is as large is all of it. */
  lemma CoversAll(s: State, report: Report)
    requires PairsPrefixes(s, report) && report.seen == [|s.accepted|, |s.accepted|]
    requires multiset(s.servers[1].applied) <= multiset(s.accepted)
    ensures report.vals == Values(Wrap(Sum(s.accepted)), Wrap(-Sum(s.accepted)))
  {
    var applied := s.servers[1].applied;
    assert |multiset(s.accepted) - multiset(applied)| == |s.accepted| - |applied|;
    assert multiset(applied) == multiset(s.accepted);
    SumOfPermutation(applied, s.accepted);
    assert applied[..|s.accepted|] == applied && s.accepted[..|s.accepted|] == s.accepted;
  }

  // ---- shutdown ----

  /** Every sample of server sv was handed to recordFn, in order, in batches of 1..size. */
  predicate AllHanded(sv: Server, size: nat) {
    && sv.open == []
    && Flatten(sv.handed) == sv.sampled
    && |sv.sampled| == |sv.applied|
    && forall i :: 0 <= i < |sv.handed| ==> 1 <= |sv.handed[i]| <= size
  }

  /** Every accepted number was applied, every sample handed over and not lost on the way to the
      aggregator's queue, and the last report, the only final one, shows the exact totals. */
  predicate CleanStop(c: Config, s: State) {
    && AtRest(s)
    && s.reports != []
    && (forall r :: 0 <= r < |s.reports| ==> (s.reports[r].final <==> r == |s.reports| - 1))
    && s.reports[|s.reports| - 1].vals == Values(Wrap(Sum(s.accepted)), Wrap(-Sum(s.accepted)))
    && forall j :: 0 <= j < |s.servers| ==>
         && multiset(s.servers[j].applied) == multiset(s.accepted)
         && AllHanded(s.servers[j], c.size)
         && FromServer(s.recorded + s.aggQueue, j) == s.servers[j].handed
  }

  /** In every run no channel is sent on or closed after its close, and when Run returns it has
      stopped cleanly. */
  lemma ShutdownIsSafe(c: Config, n: nat, events: seq<Event>)
    requires c.size > 0 && IsRun(c, Init(c, n), events)
    ensures !After(c, n, events).panicked
    ensures After(c, n, events).main.Returned? ==> CleanStop(c, After(c, n, events))
  {
    Reached(c, n, events);
    if After(c, n, events).main.Returned? {
      ReturnedIsClean(c, After(c, n, events));
    }
  }

  lemma ReturnedIsClean(c: Config, s: State)
    requires Inv(c, s) && s.main.Returned?
    ensures CleanStop(c, s)
  {
    hide Inv, AtRest, AllHanded, Fold, Sum, FromServer;
    AllStopped(c, s);
    LastIsFinal(c, s);
    FinalReport(c, s);
    forall j | 0 <= j < |s.servers|
      ensures multiset(s.servers[j].applied) == multiset(s.accepted) && AllHanded(s.servers[j], c.size)
      ensures FromServer(s.recorded + s.aggQueue, j) == s.servers[j].handed
    {
      RestedServer(c, s, j);
      StoppedDelivered(c, s, j);
    }
  }

  lemma LastIsFinal(c: Config, s: State)
    requires Inv(c, s) && s.main.Returned?
    ensures s.printer.Finished? && s.reports != []
    ensures forall r :: 0 <= r < |s.reports| ==> (s.reports[r].final <==> r == |s.reports| - 1)
  {
    hide Servers, Flow, Delivered;
  }

  lemma StoppedDelivered(c: Config, s: State, j: nat)
    requires Inv(c, s) && s.main.Returned? && j < |s.servers|
    ensures AllHanded(s.servers[j], c.size)
    ensures FromServer(s.recorded + s.aggQueue, j) == s.servers[j].handed
  {
    AllStopped(c, s);
    hide Flow, Order, Reports, Sound, AllHanded, AtRest;
    assert SoundAs(c, j, s.servers[j]);
    StoppedHandedAll(c, j, s.servers[j]);
  }

  lemma StoppedHandedAll(c: Config, j: nat, sv: Server)
    requires SoundAs(c, j, sv) && sv.pc.Stopped?
    ensures AllHanded(sv, c.size)
  {
    hide Folded, Flatten;
    assert Flatten(sv.handed) + [] == Flatten(sv.handed);
  }

  lemma AllStopped(c: Config, s: State)
    requires Inv(c, s) && s.main.Returned?
    ensures forall j :: 0 <= j < |s.servers| ==> s.servers[j].pc.Stopped?
    ensures AtRest(s)
  {
    forall j | 0 <= j < |s.servers|
      ensures s.servers[j].pc.Stopped? && s.servers[j].queue == [] && InHand(s.servers[j]) == []
    {
      assert SoundAs(c, j, s.servers[j]);
    }
  }

  lemma FinalReport(c: Config, s: State)
    requires Inv(c, s) && AtRest(s) && s.printer.Finished?
    ensures s.reports != []
    ensures s.reports[|s.reports| - 1].vals == Values(Wrap(Sum(s.accepted)), Wrap(-Sum(s.accepted)))
  {
    hide Inv, AtRest, Fold, Sum;
    RolesCover(c, s);
    FinalPart(c, s, 0);
    FinalPart(c, s, |s.servers| - 1);
    FoldIsWrappedSum(s.accepted);
  }

  /** The first calculator adds and the last one subtracts. */
  lemma RolesCover(c: Config, s: State)
    requires Inv(c, s)
    ensures s.servers != [] && s.servers[0].role != SubOnly && s.servers[|s.servers| - 1].role != AddOnly
  {
    hide Flow, Order, Delivered, Reports, Sound;
    assert SoundAs(c, 0, s.servers[0]) && SoundAs(c, |s.servers| - 1, s.servers[|s.servers| - 1]);
  }

  /** What the final report shows of calculator j is its share of the fold of all accepted numbers. */
  lemma FinalPart(c: Config, s: State, j: nat)
    requires Inv(c, s) && AtRest(s) && s.printer.Finished? && j < |s.servers|
    ensures s.reports != []
    ensures var vals := s.reports[|s.reports| - 1].vals;
      && (s.servers[j].role != SubOnly ==> vals.sum == Fold(s.accepted).sum)
      && (s.servers[j].role != AddOnly ==> vals.sub == Fold(s.accepted).sub)
  {
    RestedServer(c, s, j);
    hide Servers, Flow, Order, Delivered, Fold, AtRest;
    var report, sv := s.reports[|s.reports| - 1], s.servers[j];
    assert HonestReport(s.servers, report) && report.final;
    assert HonestPart(sv, report.vals, report.seen[j]);
    assert sv.applied[..report.seen[j]] == sv.applied;
    FoldOfPermutation(sv.applied, s.accepted);
  }
}
