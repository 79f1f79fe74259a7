/**
 What becomes of the numbers that handlers enter Calculate with: each is accepted, rejected, or
 still undecided.
 */
module ServerOffers {
  import opened Counting
  import opened Calculators
  import opened ServerSystem

  /** What a handler offers to the first calculator: neither accepted nor rejected yet. */
  function UndecidedBy(client: Client, p: Probe): nat {
    if client.Offering? && client.stage == 0 then Hit(p, client.num) else 0
  }

  function Undecided(clients: seq<Client>, p: Probe): nat {
    if clients == [] then 0
    else Undecided(clients[..|clients| - 1], p) + UndecidedBy(clients[|clients| - 1], p)
  }

  lemma {:induction false} UndecidedUpdate(clients: seq<Client>, i: nat, client: Client, p: Probe)
    requires i < |clients|
    ensures Undecided(clients[i := client], p) + UndecidedBy(clients[i], p) ==
            Undecided(clients, p) + UndecidedBy(client, p)
  {
    var last := |clients| - 1;
    if i < last {
      UndecidedUpdate(clients[..last], i, client, p);
      assert clients[i := client][..last] == clients[..last][i := client];
    } else {
      assert clients[i := client][..last] == clients[..last];
    }
  }

  lemma {:induction false} NoneUndecided(clients: seq<Client>, p: Probe)
    requires forall i :: 0 <= i < |clients| ==> clients[i].Idle?
    ensures Undecided(clients, p) == 0
  {
    if clients != [] {
      NoneUndecided(clients[..|clients| - 1], p);
    }
  }

  /** Every offered number is accepted, rejected or undecided, and is only one of these. */
  predicate Decided(s: State, p: Probe) {
    Count(s.accepted, p) + Count(s.rejected, p) + Undecided(s.clients, p) == Count(s.offered, p)
  }

  lemma BeginKeepsDecided(s: State, i: nat, num: int, p: Probe)
    requires Decided(s, p) && i < |s.clients| && s.clients[i].Idle?
    ensures Decided(s.(clients := s.clients[i := Offering(num, 0)], offered := s.offered + [num]), p)
  {
    UndecidedUpdate(s.clients, i, Offering(num, 0), p);
    CountAppend(s.offered, num, p);
  }

  lemma RejectKeepsDecided(s: State, i: nat, p: Probe)
    requires Decided(s, p) && i < |s.clients| && s.clients[i].Offering? && s.clients[i].stage == 0
    ensures Decided(s.(clients := s.clients[i := Idle], rejected := s.rejected + [s.clients[i].num]), p)
  {
    UndecidedUpdate(s.clients, i, Idle, p);
    CountAppend(s.rejected, s.clients[i].num, p);
  }

  lemma PushKeepsDecided(s: State, i: nat, client: Client, p: Probe)
    requires Decided(s, p) && i < |s.clients| && s.clients[i].Offering?
    requires client.Offering? ==> client.stage > 0
    ensures Decided(s.(clients := s.clients[i := client],
                       accepted := if s.clients[i].stage == 0 then s.accepted + [s.clients[i].num] else s.accepted), p)
  {
    UndecidedUpdate(s.clients, i, client, p);
    CountAppend(s.accepted, s.clients[i].num, p);
  }

  lemma ClientKeepsDecided(c: Config, s: State, i: nat, ce: ClientEvent, p: Probe)
    requires Decided(s, p) && ClientCan(c, s, i, ce)
    ensures Decided(ClientStep(c, s, i, ce), p)
  {
    hide Count, Undecided, CanPush, Offer;
    match ce
    case Begin(num) => BeginKeepsDecided(s, i, num, p);
    case Reject => RejectKeepsDecided(s, i, p);
    case Push =>
      if !s.servers[s.clients[i].stage].closed {
        PushKeepsDecided(s, i, ClientStep(c, s, i, Push).clients[i], p);
      }
  }

  /** Only handlers offer, and only they decide. */
  lemma OthersKeepOffers(c: Config, s: State, e: Event)
    requires Enabled(c, s, e) && !e.ClientAct?
    ensures var t := Apply(c, s, e);
      t.clients == s.clients && t.offered == s.offered && t.accepted == s.accepted && t.rejected == s.rejected
  {
    hide ServerStep, MainStep, PrinterStep, AggStep, GetterStep;
    hide ServerCan, MainCan, PrinterCan, AggCan, GetterCan;
  }

  lemma {:induction false} RunKeepsDecided(c: Config, s: State, events: seq<Event>, p: Probe)
    requires Decided(s, p) && IsRun(c, s, events)
    ensures Decided(Execute(c, s, events), p)
    decreases |events|
  {
    hide Undecided, Count, Apply;
    if events != [] {
      EventKeepsDecided(c, s, events[0], p);
      RunKeepsDecided(c, Apply(c, s, events[0]), events[1..], p);
    }
  }

  lemma EventKeepsDecided(c: Config, s: State, e: Event, p: Probe)
    requires Decided(s, p) && Enabled(c, s, e)
    ensures Decided(Apply(c, s, e), p)
  {
    hide Undecided, Count, ClientStep, ServerStep, MainStep, PrinterStep, AggStep, GetterStep;
    if e.ClientAct? {
      ClientKeepsDecided(c, s, e.i, e.ce, p);
    } else {
      OthersKeepOffers(c, s, e);
    }
  }

  /** In every run, counting each number x: what was offered is what was accepted, what was
      rejected, and what is still undecided. */
  lemma OfferedIsDecided(c: Config, n: nat, events: seq<Event>, x: int)
    requires IsRun(c, Init(c, n), events)
    ensures var s := Execute(c, Init(c, n), events);
      && multiset(s.accepted)[x] + multiset(s.rejected)[x] + Undecided(s.clients, Only(x)) == multiset(s.offered)[x]
      && |s.accepted| + |s.rejected| + Undecided(s.clients, Any) == |s.offered|
  {
    var init := Init(c, n);
    NoneUndecided(init.clients, Only(x));
    NoneUndecided(init.clients, Any);
    RunKeepsDecided(c, init, events, Only(x));
    RunKeepsDecided(c, init, events, Any);
    hide IsRun, Execute, Init;
    var s := Execute(c, Init(c, n), events);
    CountIsMultiplicity(s.accepted, x);
    CountIsMultiplicity(s.rejected, x);
    CountIsMultiplicity(s.offered, x);
    CountAll(s.accepted);
    CountAll(s.rejected);
    CountAll(s.offered);
  }
}
