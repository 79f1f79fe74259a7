/**
 The flow of metric batches over real, recycled arrays, one step of one goroutine at a time. Every
 array in circulation is in exactly one place, and what can be seen is what BatchFlows shows, where
 every batch is fresh.
 */
module Flows {
  import opened Options
  import opened Slices
  import opened BatchFlows
  import opened Batches

  datatype Message<S> = Message(recorder: nat, batch: Slice<S>)

  // ---- places ----

  /** One place for at most one array. */
  function Single<A>(place: Option<A>): multiset<A> {
    if place.Some? then multiset{place.value} else multiset{}
  }

  function Filled<A>(places: seq<Option<A>>): multiset<A> {
    if places == [] then multiset{}
    else Filled(places[..|places| - 1]) + Single(places[|places| - 1])
  }

  lemma AddOne<A>(after: multiset<A>, before: multiset<A>, out: multiset<A>, into: multiset<A>, other: multiset<A>)
    requires after + out == before + into
    ensures (after + other) + out == (before + other) + into
  {
    assert (after + other) + out == (after + out) + other;
    assert (before + other) + into == (before + into) + other;
  }

  lemma {:induction false} FilledUpdate<A>(places: seq<Option<A>>, i: nat, place: Option<A>)
    requires i < |places|
    ensures Filled(places[i := place]) + Single(places[i]) == Filled(places) + Single(place)
  {
    hide Filled, Single;
    var last, after := |places| - 1, places[i := place];
    var front, front' := places[..last], after[..last];
    FilledAppend(front, places[last]);
    FilledAppend(front', after[last]);
    assert places == front + [places[last]] && after == front' + [after[last]];
    assert Filled(places) == Filled(front) + Single(places[last]);
    assert Filled(after) == Filled(front') + Single(after[last]);
    if i < last {
      FilledUpdate(front, i, place);
      assert front' == front[i := place] && front[i] == places[i] && after[last] == places[last];
      AddOne(Filled(front'), Filled(front), Single(places[i]), Single(place), Single(places[last]));
    } else {
      assert front' == front && after[last] == place && places[i] == places[last];
      Swapped(Filled(front), Single(place), Single(places[last]));
    }
  }

  lemma FilledAppend<A>(places: seq<Option<A>>, place: Option<A>)
    ensures Filled(places + [place]) == Filled(places) + Single(place)
  {
    assert (places + [place])[..|places|] == places;
  }

  lemma Swapped<A>(before: multiset<A>, one: multiset<A>, other: multiset<A>)
    ensures (before + one) + other == (before + other) + one
  {
  }

  lemma {:induction false} FilledHas<A>(places: seq<Option<A>>, i: nat)
    requires i < |places| && places[i].Some?
    ensures places[i].value in Filled(places)
  {
    if i < |places| - 1 {
      FilledHas(places[..|places| - 1], i);
    }
  }

  lemma {:induction false} NoneFilled<A>(places: seq<Option<A>>)
    requires forall i :: 0 <= i < |places| ==> places[i].None?
    ensures Filled(places) == multiset{}
  {
    if places != [] {
      NoneFilled(places[..|places| - 1]);
    }
  }

  /** Every array of `all` is in exactly one place: pool, one recorder, one channel slot, or the
      aggregator's hands; and no other array is in any. */
  ghost predicate OnePlaceEach<A>(free: seq<A>, owned: seq<Option<A>>, channel: seq<A>, held: Option<A>, all: set<A>) {
    multiset(free) + Filled(owned) + multiset(channel) + Single(held) == multiset(all)
  }

  function Members<A>(s: seq<A>): set<A> {
    set a | a in s
  }

  /** An array that changes places leaves the sum of the places as it was. */
  lemma Moved<A>(free: multiset<A>, owned: multiset<A>, channel: multiset<A>, held: multiset<A>, a: multiset<A>)
    ensures free + (owned + a) + channel + held == (free + a) + owned + channel + held
    ensures free + (owned + a) + channel + held == free + owned + (channel + a) + held
    ensures free + owned + (channel + a) + held == free + owned + channel + (held + a)
    ensures (free + a) + owned + channel + held == free + owned + channel + (held + a)
    ensures (free + a) + owned + channel + held == (free + owned + channel + held) + a
  {
  }

  /** Recorder i gets array a: from the pool, or a new one. */
  lemma Got<A>(free: seq<A>, owned: seq<Option<A>>, channel: seq<A>, held: Option<A>, all: set<A>, i: nat, a: A, free': seq<A>)
    requires OnePlaceEach(free, owned, channel, held, all) && i < |owned| && owned[i].None?
    requires a in free || a !in all
    requires multiset(free') == multiset(free) - multiset{a}
    ensures OnePlaceEach(free', owned[i := Some(a)], channel, held, all + {a}) && (a in free ==> a in all)
  {
    FilledUpdate(owned, i, Some(a));
    assert Filled(owned[i := Some(a)]) == Filled(owned) + multiset{a};
    Moved(multiset(free'), Filled(owned), multiset(channel), Single(held), multiset{a});
    hide Filled;
    var rest := Filled(owned) + multiset(channel) + Single(held);
    assert multiset(free) + rest == multiset(all);
    Joined(free, free', rest, a, all);
    assert (multiset(free') + multiset{a}) + rest == multiset(all + {a});
  }

  /** Taking a out of the pool, if it is there, and adding it elsewhere. */
  lemma Joined<A>(free: seq<A>, free': seq<A>, rest: multiset<A>, a: A, all: set<A>)
    requires multiset(free) + rest == multiset(all) && (a in free || a !in all)
    requires multiset(free') == multiset(free) - multiset{a}
    ensures (multiset(free') + multiset{a}) + rest == multiset(all + {a})
    ensures a in free ==> a in all
  {
    assert a in multiset(free) <==> a in free;
    if a in free {
      assert multiset(free) == multiset(free') + multiset{a};
      assert a in multiset(all);
      assert all + {a} == all;
    } else {
      assert multiset(free)[a] == 0;
      assert multiset(free') == multiset(free);
      assert multiset(all + {a}) == multiset(all) + multiset{a};
    }
  }

  lemma SentOn<A>(free: seq<A>, owned: seq<Option<A>>, channel: seq<A>, held: Option<A>, all: set<A>, i: nat)
    requires OnePlaceEach(free, owned, channel, held, all) && i < |owned| && owned[i].Some?
    ensures OnePlaceEach(free, owned[i := None], channel + [owned[i].value], held, all)
  {
    var a := owned[i].value;
    FilledUpdate(owned, i, None);
    assert Filled(owned) == Filled(owned[i := None]) + multiset{a};
    assert multiset(channel + [a]) == multiset(channel) + multiset{a};
    Moved(multiset(free), Filled(owned[i := None]), multiset(channel), Single(held), multiset{a});
  }

  lemma Received<A>(free: seq<A>, owned: seq<Option<A>>, channel: seq<A>, all: set<A>)
    requires OnePlaceEach(free, owned, channel, None, all) && channel != []
    ensures OnePlaceEach(free, owned, channel[1..], Some(channel[0]), all)
  {
    hide Filled;
    assert channel == [channel[0]] + channel[1..];
    assert multiset(channel) == multiset(channel[1..]) + multiset{channel[0]};
    Moved(multiset(free), Filled(owned), multiset(channel[1..]), multiset{}, multiset{channel[0]});
  }

  lemma GivenBack<A>(free: seq<A>, owned: seq<Option<A>>, channel: seq<A>, a: A, all: set<A>)
    requires OnePlaceEach(free, owned, channel, Some(a), all)
    ensures OnePlaceEach(free + [a], owned, channel, None, all) && a !in free
  {
    hide Filled;
    assert multiset(free + [a]) == multiset(free) + multiset{a};
    Moved(multiset(free), Filled(owned), multiset(channel), multiset{}, multiset{a});
    Once(multiset(free), multiset(free) + Filled(owned) + multiset(channel), a, all);
    assert a in free <==> a in multiset(free);
  }

  /** What is part of the rest is no second a. */
  lemma Once<A>(part: multiset<A>, rest: multiset<A>, a: A, all: set<A>)
    requires rest + multiset{a} == multiset(all) && part <= rest
    ensures a !in part
  {
    assert multiset(all)[a] == rest[a] + 1;
  }

  lemma Collected<A>(free: seq<A>, owned: seq<Option<A>>, channel: seq<A>, held: Option<A>, all: set<A>, n: nat)
    requires OnePlaceEach(free, owned, channel, held, all) && n <= |free|
    ensures OnePlaceEach(free[n..], owned, channel, held, all - Members(free[..n]))
  {
    hide Filled;
    var rest := multiset(free[n..]) + Filled(owned) + multiset(channel) + Single(held);
    assert free == free[..n] + free[n..];
    Moved(multiset(free[n..]), Filled(owned), multiset(channel), Single(held), multiset(free[..n]));
    assert rest + multiset(free[..n]) == multiset(all);
    WithoutSome(rest, free[..n], all);
  }

  lemma WithoutSome<A>(rest: multiset<A>, some: seq<A>, all: set<A>)
    requires rest + multiset(some) == multiset(all)
    ensures rest == multiset(all - Members(some))
  {
    forall a ensures rest[a] == multiset(all - Members(some))[a] {
      assert a in some <==> multiset(some)[a] > 0;
      assert rest[a] + multiset(some)[a] == multiset(all)[a] <= 1;
    }
  }

  /** Recorder i's array is nobody else's. */
  lemma NobodyElses<A>(free: seq<A>, owned: seq<Option<A>>, channel: seq<A>, held: Option<A>, all: set<A>, i: nat)
    requires OnePlaceEach(free, owned, channel, held, all) && i < |owned| && owned[i].Some?
    ensures forall j :: 0 <= j < |owned| && j != i ==> owned[j] != owned[i]
    ensures owned[i].value !in channel && held != owned[i] && owned[i].value in all
  {
    var a := owned[i].value;
    var others := Filled(owned[i := None]);
    FilledUpdate(owned, i, None);
    assert Filled(owned) == others + multiset{a};
    var rest := multiset(free) + others + multiset(channel) + Single(held);
    Moved(multiset(free), others, multiset(channel), Single(held), multiset{a});
    assert a in multiset(all);
    Once(others, rest, a, all);
    Once(multiset(channel), rest, a, all);
    Once(Single(held), rest, a, all);
    assert a in channel <==> a in multiset(channel);
    forall j | 0 <= j < |owned| && j != i ensures owned[j] != owned[i] {
      if owned[j] == owned[i] {
        FilledHas(owned[i := None], j);
      }
    }
  }

  function Arrays<S>(channel: seq<Message<S>>): (arrays: seq<array<S>>)
    ensures |arrays| == |channel| && forall k :: 0 <= k < |channel| ==> arrays[k] == channel[k].batch.arr
  {
    seq(|channel|, k requires 0 <= k < |channel| => channel[k].batch.arr)
  }

  /** The recorders of one calculator (one for Async, two for Parallel, sharing one pool), the
      channel to the aggregator, and the aggregator's loop over the batch it has received. */
  class Flow<S(0)> {
    const capacity: nat
    const pool: BatchPool<S>
    const recorders: seq<MetricRecorder<S>>
    var channel: seq<Message<S>>
    var held: Option<Message<S>>
    var read: seq<S>
    var recorded: seq<Batch<S>>

    // The arrays in circulation.
    ghost var circulating: set<array<S>>

    constructor (capacity: nat, pool: BatchPool<S>, recorders: seq<MetricRecorder<S>>)
      requires pool.Valid() && pool.free == []
      requires forall i :: 0 <= i < |recorders| ==>
        recorders[i].pool == pool && recorders[i].Valid() && recorders[i].pc.Ready? && recorders[i].batch == None
      requires forall i, j :: 0 <= i < j < |recorders| ==> recorders[i] != recorders[j]
      ensures Valid() && this.capacity == capacity && this.pool == pool && this.recorders == recorders
      ensures circulating == {} && Seen() == Init(|recorders|)
    {
      this.capacity := capacity;
      this.pool := pool;
      this.recorders := recorders;
      channel, held, read, recorded := [], None, [], [];
      circulating := {};
      new;
      StartsEmpty();
    }

    lemma StartsEmpty()
      requires PartsValid() && pool.free == [] && circulating == {}
      requires channel == [] && held == None && read == [] && recorded == []
      requires forall i :: 0 <= i < |recorders| ==> recorders[i].pc.Ready? && recorders[i].batch == None
      ensures Valid() && Seen() == Init(|recorders|)
    {
      NoneFilled(Owned());
      assert Arrays(channel) == [];
    }

    /** Something somebody will still read. */
    ghost predicate Readable(m: Message<S>) {
      m.recorder < |recorders| && 0 < m.batch.len <= m.batch.arr.Length == pool.batchSize
    }

    ghost predicate PartsValid()
      reads this, pool, recorders
    {
      && pool.Valid()
      && (forall i :: 0 <= i < |recorders| ==> recorders[i].pool == pool && recorders[i].Valid())
      && (forall i, j :: 0 <= i < j < |recorders| ==> recorders[i] != recorders[j])
      && (forall k :: 0 <= k < |channel| ==> Readable(channel[k]))
      && (held.Some? ==> Readable(held.value) && |read| <= held.value.batch.len)
      && (held.None? ==> read == [])
    }

    /** The array of every recorder that has one of its own. */
    ghost function Owned(): (places: seq<Option<array<S>>>)
      reads recorders
      ensures |places| == |recorders|
    {
      seq(|recorders|, i requires 0 <= i < |recorders| reads recorders =>
        if recorders[i].Owner() then Some(recorders[i].batch.value.arr) else None)
    }

    ghost function Held(): Option<array<S>>
      reads this
    {
      if held.Some? then Some(held.value.batch.arr) else None
    }

    ghost predicate Valid()
      reads this, pool, recorders
    {
      PartsValid() && OnePlaceEach(pool.free, Owned(), Arrays(channel), Held(), circulating)
    }

    /** The samples behind a message, as they are in its array now. */
    ghost function Content(m: Message<S>): Batch<S>
      reads m.batch.arr
      requires m.batch.len <= m.batch.arr.Length
    {
      Batch(m.recorder, m.batch.arr[..m.batch.len])
    }

    ghost function SeenRecorders(): (rs: seq<Recorder<S>>)
      requires PartsValid()
      reads *
      ensures |rs| == |recorders|
      ensures forall i :: 0 <= i < |recorders| ==> rs[i] == Recorder(recorders[i].pc, recorders[i].Open())
    {
      seq(|recorders|, i requires 0 <= i < |recorders| && PartsValid() reads * => Recorder(recorders[i].pc, recorders[i].Open()))
    }

    ghost function SeenChannel(): (bs: seq<Batch<S>>)
      requires PartsValid()
      reads *
      ensures |bs| == |channel|
      ensures forall k :: 0 <= k < |channel| ==> bs[k] == Content(channel[k])
    {
      seq(|channel|, k requires 0 <= k < |channel| && PartsValid() reads * => Content(channel[k]))
    }

    /** What there is to see, whichever arrays it is in. */
    ghost function Seen(): View<S>
      requires PartsValid()
      reads *
    {
      View(SeenRecorders(), SeenChannel(), if held.Some? then Some(Content(held.value)) else None, read, recorded)
    }

    ghost function Cfg(): Config {
      Config(capacity, pool.batchSize)
    }

    // ---- the steps ----

    /** record of recorder i takes a new batch. */
    method Open(i: nat)
      requires Valid() && i < |recorders| && recorders[i].pc.Ready? && recorders[i].batch == None
      modifies this`circulating, pool, recorders[i]
      ensures Valid() && fresh(circulating - old(circulating))
      ensures Seen() == old(Seen()).(recorders := old(Seen()).recorders[i := Recorder(Opened, [])])
    {
      hide OnePlaceEach;
      ghost var free, owned := pool.free, Owned();
      recorders[i].MakeBatch();
      var a := recorders[i].batch.value.arr;
      Got(free, owned, Arrays(channel), Held(), circulating, i, a, pool.free);
      circulating := circulating + {a};
      assert Owned() == owned[i := Some(a)];
      assert SeenChannel() == old(SeenChannel());
    }

    /** flush of recorder i begins: its timer fired, or its calculator stops. */
    method Flush(i: nat)
      requires Valid() && i < |recorders| && recorders[i].pc.Ready? && recorders[i].batch.Some?
      modifies recorders[i]
      ensures Valid()
      ensures Seen() == old(Seen()).(recorders := old(Seen()).recorders[i := old(Seen()).recorders[i].(pc := Sending)])
    {
      hide OnePlaceEach;
      ghost var owned := Owned();
      var _ := recorders[i].StartFlush();
      assert Owned() == owned;
    }

    /** recordFn of recorder i: the blocking send goes through. */
    method Send(i: nat)
      requires Valid() && i < |recorders| && recorders[i].pc.Sending?
      modifies this`channel, recorders[i]
      ensures Valid()
      ensures var v := old(Seen());
        Seen() == v.(recorders := v.recorders[i := Recorder(Sent, [])], channel := v.channel + [Batch(i, v.recorders[i].open)])
    {
      hide OnePlaceEach;
      ghost var owned := Owned();
      SentOn(pool.free, owned, Arrays(channel), Held(), circulating, i);
      var batch := recorders[i].batch.value;
      ghost var arrays := Arrays(channel);
      channel := channel + [Message(i, batch)];
      recorders[i].pc := Sent;
      assert Owned() == owned[i := None] && Arrays(channel) == arrays + [batch.arr];
    }

    /** The rest of flush of recorder i. */
    method Clear(i: nat)
      requires Valid() && i < |recorders| && recorders[i].pc.Sent?
      modifies recorders[i]
      ensures Valid()
      ensures Seen() == old(Seen()).(recorders := old(Seen()).recorders[i := Recorder(Ready, [])])
    {
      hide OnePlaceEach;
      ghost var owned := Owned();
      recorders[i].Clear();
      assert Owned() == owned;
    }

    /** The aggregator takes the next batch. */
    method Receive()
      requires Valid() && held.None? && channel != []
      modifies this`held, this`channel
      ensures Valid()
      ensures Seen() == old(Seen()).(held := Some(old(Seen()).channel[0]), channel := old(Seen()).channel[1..], read := [])
    {
      hide OnePlaceEach;
      Received(pool.free, Owned(), Arrays(channel), circulating);
      ghost var arrays := Arrays(channel);
      held, channel := Some(channel[0]), channel[1..];
      assert Arrays(channel) == arrays[1..];
    }

    /** One turn of the loop in recordSamples or recordDurations. */
    method ReadOne()
      requires Valid() && held.Some? && |read| < held.value.batch.len
      modifies this`read
      ensures Valid()
      ensures Seen() == old(Seen()).(read := old(Seen()).read + [old(Seen()).held.value.samples[|old(Seen()).read|]])
    {
      hide OnePlaceEach;
      read := read + [held.value.batch.arr[|read|]];
    }

    /** The batch has been read; its array goes back to the pool. */
    method PutBack()
      requires Valid() && held.Some? && |read| == held.value.batch.len
      modifies this`held, this`read, this`recorded, pool
      ensures Valid()
      ensures var v := old(Seen());
        Seen() == v.(held := None, read := [], recorded := v.recorded + [Batch(v.held.value.recorder, v.read)])
    {
      hide OnePlaceEach;
      GivenBack(pool.free, Owned(), Arrays(channel), held.value.batch.arr, circulating);
      recorded := recorded + [Batch(held.value.recorder, read)];
      pool.Put(held.value.batch);
      held, read := None, [];
    }

    method Drop(n: nat)
      requires Valid() && n <= |pool.free|
      modifies this`circulating, pool
      ensures Valid() && circulating <= old(circulating)
    {
      hide OnePlaceEach, Members, Arrays;
      ghost var owned, arrays, kept, gone := Owned(), Arrays(channel), pool.free[n..], Members(pool.free[..n]);
      Collected(pool.free, owned, arrays, Held(), circulating, n);
      pool.Collect(n);
      circulating := circulating - gone;
      assert pool.free == kept && Owned() == owned && Arrays(channel) == arrays;
    }

    /** The garbage collector takes any number of pooled arrays away. */
    method Collect()
      requires Valid()
      modifies this`circulating, pool
      ensures Valid() && circulating <= old(circulating)
      ensures Seen() == old(Seen())
    {
      hide OnePlaceEach;
      var n :| 0 <= n <= |pool.free|;
      Drop(n);
      assert SeenChannel() == old(SeenChannel());
      assert SeenRecorders() == old(SeenRecorders());
    }

    /** record of recorder i appends. Nobody else looks at the array. */
    method Append(i: nat, sample: S)
      requires Valid() && i < |recorders|
      requires recorders[i].pc.Opened? || (recorders[i].pc.Ready? && recorders[i].batch.Some?)
      modifies recorders[i], recorders[i].batch.value.arr
      ensures Valid()
      ensures var v := old(Seen());
        Seen() == v.(recorders := v.recorders[i := Appended(pool.batchSize, v.recorders[i].open, sample)])
    {
      hide OnePlaceEach;
      ghost var owned, arr := Owned(), recorders[i].batch.value.arr;
      NobodyElses(pool.free, owned, Arrays(channel), Held(), circulating, i);
      assert forall k :: 0 <= k < |channel| ==> Arrays(channel)[k] != arr;
      assert forall j :: 0 <= j < |recorders| && j != i && recorders[j].Owner() ==> recorders[j].batch.value.arr != arr by {
        forall j | 0 <= j < |recorders| && j != i && recorders[j].Owner() ensures recorders[j].batch.value.arr != arr {
          assert owned[j] != owned[i];
        }
      }
      recorders[i].Add(sample);
      assert Owned() == owned;
      assert PartsValid();
      assert SeenChannel() == old(SeenChannel());
      assert SeenRecorders() == old(SeenRecorders())[i := Appended(pool.batchSize, old(SeenRecorders())[i].open, sample)];
    }

    // ---- whole runs ----

    /** Any step that can be seen to be enabled is taken as it should be seen. */
    method Step(e: Event<S>)
      requires Valid() && Enabled(Cfg(), Seen(), e)
      modifies this, pool, recorders, circulating
      ensures Valid() && fresh(circulating - old(circulating))
      ensures Seen() == Apply(Cfg(), old(Seen()), e)
    {
      hide OnePlaceEach;
      match e
      case Open(i) => Open(i);
      case Append(i, sample) =>
        OwnIsCirculating(i);
        Append(i, sample);
      case Flush(i) => Flush(i);
      case Send(i) => Send(i);
      case Clear(i) => Clear(i);
      case Receive => Receive();
      case ReadOne => ReadOne();
      case PutBack => PutBack();
      case Collect => Collect();
    }

    lemma OwnIsCirculating(i: nat)
      requires Valid() && i < |recorders| && recorders[i].Owner()
      ensures recorders[i].batch.value.arr in circulating
    {
      NobodyElses(pool.free, Owned(), Arrays(channel), Held(), circulating, i);
    }

    /** Any interleaving of recorders, aggregator and collector. */
    method Run(events: seq<Event<S>>)
      requires Valid() && IsRun(Cfg(), Seen(), events)
      modifies this, pool, recorders, circulating
      ensures Valid() && Seen() == Execute(Cfg(), old(Seen()), events)
    {
      hide PartsValid, OnePlaceEach, Seen, Enabled, Apply;
      for k := 0 to |events|
        invariant Valid() && fresh(circulating - old(circulating))
        invariant IsRun(Cfg(), Seen(), events[k..])
        invariant Execute(Cfg(), Seen(), events[k..]) == Execute(Cfg(), old(Seen()), events)
      {
        Step(events[k]);
        assert events[k..][1..] == events[k + 1..];
      }
    }
  }

  /** The whole flow, from an empty pool on: whatever the interleaving, the recycled arrays show
      what fresh ones would. */
  method RunFromStart<S(0)>(c: Config, n: nat, events: seq<Event<S>>) returns (flow: Flow<S>)
    requires c.size > 0 && IsRun(c, Init(n), events)
    ensures flow.Valid() && flow.Seen() == Execute(c, Init(n), events)
    ensures forall j :: 0 <= j < n ==> |flow.recorders| == n && ReadFrom(flow.Seen(), j) <= Samples(events, j)
  {
    var pool := new BatchPool<S>(c.size);
    var recorders: seq<MetricRecorder<S>> := [];
    for i := 0 to n
      invariant |recorders| == i && fresh(pool) && pool.Valid() && pool.free == [] && pool.batchSize == c.size
      invariant forall j :: 0 <= j < i ==>
        fresh(recorders[j]) && recorders[j].pool == pool && recorders[j].Valid() && recorders[j].pc.Ready? && recorders[j].batch == None
      invariant forall j, k :: 0 <= j < k < i ==> recorders[j] != recorders[k]
    {
      var r := new MetricRecorder(pool);
      recorders := recorders + [r];
    }
    flow := new Flow(c.capacity, pool, recorders);
    assert flow.Cfg() == c;
    flow.Run(events);
    forall j | 0 <= j < n ensures ReadFrom(flow.Seen(), j) <= Samples(events, j) {
      StreamsAreExact(c, n, events, j);
    }
  }
}
