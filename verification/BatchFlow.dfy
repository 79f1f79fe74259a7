/**
 Metric batches on their way from recorders to aggregator, as they would be if every batch were
 freshly allocated: one step at a time, in any interleaving of the goroutines. Class Flows.Flow
 takes the same steps over recycled arrays.
 */
module BatchFlows {
  import opened Options

  /** `capacity` of the aggregator's channel, `size` of a full batch. */
  datatype Config = Config(capacity: nat, size: nat)

  /** Where a recorder stands. `Ready`: outside record and flush. `Opened`: inside record, with a
      new batch, before the append. `Sending`: inside recordFn. `Sent`: the send went through, the
      batch has not been set to nil yet. */
  datatype Pc = Ready | Opened | Sending | Sent

  datatype Batch<S> = Batch(recorder: nat, samples: seq<S>)

  /** `open`: the samples of the batch that is the recorder's own, [] when there is none. */
  datatype Recorder<S> = Recorder(pc: Pc, open: seq<S>)

  /** `held`: the batch the aggregator has received and is reading, `read` what it has read of it.
      `recorded`: what it has read of the batches before. */
  datatype View<S> = View(recorders: seq<Recorder<S>>, channel: seq<Batch<S>>,
                          held: Option<Batch<S>>, read: seq<S>, recorded: seq<Batch<S>>)


  function Init<S>(n: nat): View<S> {
    View(seq(n, _ => Recorder(Ready, [])), [], None, [], [])
  }

  /** Open, Append: the two halves of record. Flush: the timer fires, or the calculator stops.
      Send: the send in recordFn. Clear: what flush does after it. Receive, ReadOne, PutBack: the
      aggregator takes a batch, reads a sample, and gives the array to the pool. Collect: pooled
      arrays disappear. */
  datatype Event<S> = Open(i: nat) | Append(i: nat, sample: S) | Flush(i: nat) | Send(i: nat) | Clear(i: nat)
                    | Receive | ReadOne | PutBack | Collect

  /** The channel takes one more; without a buffer, only from hand to hand. */
  predicate Room<S>(c: Config, v: View<S>) {
    if c.capacity > 0 then |v.channel| < c.capacity else v.channel == [] && v.held.None?
  }

  predicate Enabled<S>(c: Config, v: View<S>, e: Event<S>) {
    match e
    case Open(i) => i < |v.recorders| && v.recorders[i].pc.Ready? && v.recorders[i].open == []
    case Append(i, _) =>
      && i < |v.recorders|
      && (v.recorders[i].pc.Opened? || (v.recorders[i].pc.Ready? && v.recorders[i].open != []))
    case Flush(i) => i < |v.recorders| && v.recorders[i].pc.Ready? && v.recorders[i].open != []
    case Send(i) => i < |v.recorders| && v.recorders[i].pc.Sending? && Room(c, v)
    case Clear(i) => i < |v.recorders| && v.recorders[i].pc.Sent?
    case Receive => v.held.None? && v.channel != []
    case ReadOne => v.held.Some? && |v.read| < |v.held.value.samples|
    case PutBack => v.held.Some? && |v.read| == |v.held.value.samples|
    case Collect => true
  }

  function Appended<S>(size: nat, open: seq<S>, sample: S): Recorder<S> {
    Recorder(if |open| + 1 >= size then Sending else Ready, open + [sample])
  }

  function Apply<S>(c: Config, v: View<S>, e: Event<S>): View<S>
    requires Enabled(c, v, e)
  {
    match e
    case Open(i) => v.(recorders := v.recorders[i := Recorder(Opened, [])])
    case Append(i, sample) => v.(recorders := v.recorders[i := Appended(c.size, v.recorders[i].open, sample)])
    case Flush(i) => v.(recorders := v.recorders[i := v.recorders[i].(pc := Sending)])
    case Send(i) =>
      v.(recorders := v.recorders[i := Recorder(Sent, [])], channel := v.channel + [Batch(i, v.recorders[i].open)])
    case Clear(i) => v.(recorders := v.recorders[i := Recorder(Ready, [])])
    case Receive => v.(held := Some(v.channel[0]), channel := v.channel[1..], read := [])
    case ReadOne => v.(read := v.read + [v.held.value.samples[|v.read|]])
    case PutBack => v.(held := None, read := [], recorded := v.recorded + [Batch(v.held.value.recorder, v.read)])
    case Collect => v
  }

  predicate IsRun<S>(c: Config, v: View<S>, events: seq<Event<S>>)
    decreases |events|
  {
    events == [] || (Enabled(c, v, events[0]) && IsRun(c, Apply(c, v, events[0]), events[1..]))
  }

  function Execute<S>(c: Config, v: View<S>, events: seq<Event<S>>): View<S>
    requires IsRun(c, v, events)
    decreases |events|
  {
    if events == [] then v else Execute(c, Apply(c, v, events[0]), events[1..])
  }

  // ---- streams ----

  /** The samples of recorder j in a list of batches, in order. */
  function From<S>(batches: seq<Batch<S>>, j: nat): seq<S> {
    if batches == [] then []
    else
      var last := batches[|batches| - 1];
      From(batches[..|batches| - 1], j) + (if last.recorder == j then last.samples else [])
  }

  lemma FromAppend<S>(batches: seq<Batch<S>>, batch: Batch<S>, j: nat)
    ensures From(batches + [batch], j) == From(batches, j) + (if batch.recorder == j then batch.samples else [])
  {
    assert (batches + [batch])[..|batches|] == batches;
  }

  lemma {:induction false} FromConcat<S>(a: seq<Batch<S>>, b: seq<Batch<S>>, j: nat)
    ensures From(a + b, j) == From(a, j) + From(b, j)
  {
    if b == [] {
      assert a + b == a;
    } else {
      var front, last := b[..|b| - 1], b[|b| - 1];
      var part := if last.recorder == j then last.samples else [];
      FromConcat(a, front, j);
      FromAppend(a + front, last, j);
      assert From(b, j) == From(front, j) + part;
      assert a + b == (a + front) + [last];
      hide From;
      assert (From(a, j) + From(front, j)) + part == From(a, j) + (From(front, j) + part);
    }
  }

  /** The batches out of their recorders' hands, oldest first; of the one being read, all of it. */
  function Gone<S>(v: View<S>): seq<Batch<S>> {
    v.recorded + (if v.held.Some? then [v.held.value] else []) + v.channel
  }

  /** All samples of recorder j that are anywhere. */
  function Stream<S>(v: View<S>, j: nat): seq<S>
    requires j < |v.recorders|
  {
    From(Gone(v), j) + v.recorders[j].open
  }

  /** What recorder j has recorded in a run. */
  function Samples<S>(events: seq<Event<S>>, j: nat): seq<S>
    decreases |events|
  {
    if events == [] then []
    else (if events[0].Append? && events[0].i == j then [events[0].sample] else []) + Samples(events[1..], j)
  }

  // ---- when batches leave their recorders ----

  /** A recorder sends because its flush was called for, or because the sample it appends makes the
      batch full; and then it does. */
  lemma BatchGoesWhenDue<S>(c: Config, v: View<S>, e: Event<S>, i: nat)
    requires Inv(c, v) && Enabled(c, v, e) && i < |v.recorders| && !v.recorders[i].pc.Sending?
    ensures |Apply(c, v, e).recorders| == |v.recorders|
    ensures Apply(c, v, e).recorders[i].pc.Sending? <==>
      (e.Flush? && e.i == i) || (e.Append? && e.i == i && |Apply(c, v, e).recorders[i].open| == c.size)
  {
  }

  /** A send waits exactly while the channel is full, or, without a buffer, while the aggregator is
      not at its select. */
  lemma SendWaitsIffFull<S>(c: Config, v: View<S>, i: nat)
    requires Inv(c, v) && i < |v.recorders| && v.recorders[i].pc.Sending?
    ensures !Enabled(c, v, Send(i)) <==>
      if c.capacity > 0 then |v.channel| == c.capacity else |v.channel| == 1 || v.held.Some?
  {
  }

  // ---- invariant ----

  predicate Full<S>(batch: Batch<S>, n: nat, size: nat) {
    batch.recorder < n && 1 <= |batch.samples| <= size
  }

  predicate RecorderOk<S>(r: Recorder<S>, size: nat) {
    match r.pc
    case Ready => |r.open| < size
    case Sending => 1 <= |r.open| <= size
    case _ => r.open == []
  }

  /** Batches hold 1..size samples, and what has been read of one is a prefix of it. */
  ghost predicate Inv<S>(c: Config, v: View<S>) {
    && c.size > 0
    && |v.channel| <= (if c.capacity > 0 then c.capacity else 1)
    && (forall j :: 0 <= j < |v.recorders| ==> RecorderOk(v.recorders[j], c.size))
    && (forall k :: 0 <= k < |v.channel| ==> Full(v.channel[k], |v.recorders|, c.size))
    && (forall k :: 0 <= k < |v.recorded| ==> Full(v.recorded[k], |v.recorders|, c.size))
    && (v.held.Some? ==> Full(v.held.value, |v.recorders|, c.size) && v.read <= v.held.value.samples)
    && (v.held.None? ==> v.read == [])
  }

  lemma InvKept<S>(c: Config, v: View<S>, e: Event<S>)
    requires Inv(c, v) && Enabled(c, v, e)
    ensures Inv(c, Apply(c, v, e)) && |Apply(c, v, e).recorders| == |v.recorders|
  {
  }

  /** Only a send takes a batch out of its recorder's hands. */
  lemma GoneKept<S>(c: Config, v: View<S>, e: Event<S>)
    requires Inv(c, v) && Enabled(c, v, e)
    ensures Gone(Apply(c, v, e)) == Gone(v) + (if e.Send? then [Batch(e.i, v.recorders[e.i].open)] else [])
  {
    if e.Receive? {
      assert [v.channel[0]] + v.channel[1..] == v.channel;
    } else if e.PutBack? {
      assert v.read == v.held.value.samples;
    }
  }

  lemma OpenKept<S>(c: Config, v: View<S>, e: Event<S>, j: nat)
    requires Inv(c, v) && Enabled(c, v, e) && j < |v.recorders|
    ensures |Apply(c, v, e).recorders| == |v.recorders|
    ensures Apply(c, v, e).recorders[j].open ==
      if e.Append? && e.i == j then v.recorders[j].open + [e.sample]
      else if e.Send? && e.i == j then [] else v.recorders[j].open
  {
  }

  /** No step loses, doubles, reorders or mixes samples; an append adds one to one stream. */
  lemma StreamKept<S>(c: Config, v: View<S>, e: Event<S>, j: nat)
    requires Inv(c, v) && Enabled(c, v, e) && j < |v.recorders|
    ensures |Apply(c, v, e).recorders| == |v.recorders|
    ensures Stream(Apply(c, v, e), j) == Stream(v, j) + (if e.Append? && e.i == j then [e.sample] else [])
  {
    hide Inv, Apply, Gone, From;
    GoneKept(c, v, e);
    OpenKept(c, v, e, j);
    var open, gone := v.recorders[j].open, From(Gone(v), j);
    if e.Send? {
      FromAppend(Gone(v), Batch(e.i, v.recorders[e.i].open), j);
      assert e.i != j ==> gone + [] == gone;
      assert (gone + open) + [] == gone + open;
    } else {
      assert Gone(v) + [] == Gone(v);
      if e.Append? && e.i == j {
        assert gone + (open + [e.sample]) == (gone + open) + [e.sample];
      }
    }
  }

  lemma {:induction false} RunKeepsInv<S>(c: Config, v: View<S>, events: seq<Event<S>>)
    requires Inv(c, v) && IsRun(c, v, events)
    ensures Inv(c, Execute(c, v, events)) && |Execute(c, v, events).recorders| == |v.recorders|
    decreases |events|
  {
    hide Inv, Enabled, Apply;
    if events != [] {
      InvKept(c, v, events[0]);
      RunKeepsInv(c, Apply(c, v, events[0]), events[1..]);
    }
  }

  lemma {:induction false} RunKeepsStream<S>(c: Config, v: View<S>, events: seq<Event<S>>, j: nat)
    requires Inv(c, v) && IsRun(c, v, events) && j < |v.recorders|
    ensures |Execute(c, v, events).recorders| == |v.recorders|
    ensures Stream(Execute(c, v, events), j) == Stream(v, j) + Samples(events, j)
    decreases |events|
  {
    hide Inv, Enabled, Apply, Stream;
    if events != [] {
      var e, rest := events[0], events[1..];
      InvKept(c, v, e);
      StreamKept(c, v, e, j);
      RunKeepsStream(c, Apply(c, v, e), rest, j);
      SamplesFrom(events, j);
      Associates(Stream(v, j), if e.Append? && e.i == j then [e.sample] else [], Samples(rest, j));
      hide Samples;
    }
  }

  lemma SamplesFrom<S>(events: seq<Event<S>>, j: nat)
    requires events != []
    ensures var e := events[0];
      Samples(events, j) == (if e.Append? && e.i == j then [e.sample] else []) + Samples(events[1..], j)
  {
  }

  lemma Associates<A>(a: seq<A>, b: seq<A>, c: seq<A>)
    ensures (a + b) + c == a + (b + c)
  {
  }

  /** What the aggregator has read of recorder j, the batch in its hands included. */
  function ReadFrom<S>(v: View<S>, j: nat): seq<S> {
    From(v.recorded, j) + (if v.held.Some? && v.held.value.recorder == j then v.read else [])
  }

  /** In every run, for every recorder: the samples recorded by it are, in order, those in batches
      out of its hands and in its open one; the aggregator has read exactly a prefix of them; and
      every batch has 1..size samples. */
  lemma StreamsAreExact<S>(c: Config, n: nat, events: seq<Event<S>>, j: nat)
    requires c.size > 0 && IsRun(c, Init(n), events) && j < n
    ensures var v := Execute(c, Init(n), events);
      && |v.recorders| == n
      && Stream(v, j) == Samples(events, j)
      && ReadFrom(v, j) <= Samples(events, j)
      && forall k :: 0 <= k < |Gone(v)| ==> 1 <= |Gone(v)[k].samples| <= c.size
  {
    var init: View<S> := Init(n);
    assert Gone(init) == [] && Stream(init, j) == [];
    RunKeepsInv(c, init, events);
    RunKeepsStream(c, init, events, j);
    var v := Execute(c, init, events);
    hide IsRun, Execute, Init, Samples;
    ReadIsPrefix(c, v, j);
  }

  lemma ReadIsPrefix<S>(c: Config, v: View<S>, j: nat)
    requires Inv(c, v) && j < |v.recorders|
    ensures ReadFrom(v, j) <= Stream(v, j)
  {
    hide From;
    var held := if v.held.Some? then [v.held.value] else [];
    FromConcat(v.recorded + held, v.channel, j);
    if v.held.Some? {
      FromAppend(v.recorded, v.held.value, j);
    } else {
      assert v.recorded + held == v.recorded;
    }
  }

  /** With everything sent, received and read, the aggregator has read all of every stream. */
  lemma AllReadAtRest<S>(c: Config, n: nat, events: seq<Event<S>>, j: nat)
    requires c.size > 0 && IsRun(c, Init(n), events) && j < n
    requires var v := Execute(c, Init(n), events); v.held.None? && v.channel == []
    ensures |Execute(c, Init(n), events).recorders| == n
    ensures Execute(c, Init(n), events).recorders[j].open == [] ==>
      From(Execute(c, Init(n), events).recorded, j) == Samples(events, j)
  {
    StreamsAreExact(c, n, events, j);
    var v := Execute(c, Init(n), events);
    assert Gone(v) == v.recorded;
  }
}
