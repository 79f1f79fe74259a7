/**
 The flow of metric batches does not jam: whatever is open, on its way or half read can be recorded
 to the end, and takes a bounded number of steps.
 */
module BatchProgress {
  import opened Options
  import opened BatchFlows

  /** Taking a batch, reading it sample by sample, and giving it back. */
  function BatchWork<S>(batch: Batch<S>): nat {
    |batch.samples| + 2
  }

  function ChannelWork<S>(channel: seq<Batch<S>>): nat {
    if channel == [] then 0 else BatchWork(channel[0]) + ChannelWork(channel[1..])
  }

  function RecorderWork<S>(r: Recorder<S>): nat {
    match r.pc
    case Ready => if r.open == [] then 0 else |r.open| + 5
    case Opened => 0
    case Sending => |r.open| + 4
    case Sent => 1
  }

  function RecordersWork<S>(rs: seq<Recorder<S>>): nat {
    if rs == [] then 0 else RecordersWork(rs[..|rs| - 1]) + RecorderWork(rs[|rs| - 1])
  }

  /** Steps left until everything recorded has been read. */
  function Work<S>(v: View<S>): nat {
    RecordersWork(v.recorders) + ChannelWork(v.channel)
    + (if v.held.Some? && |v.read| <= |v.held.value.samples| then |v.held.value.samples| - |v.read| + 1 else 0)
  }

  lemma {:induction false} ChannelWorkAppend<S>(channel: seq<Batch<S>>, batch: Batch<S>)
    ensures ChannelWork(channel + [batch]) == ChannelWork(channel) + BatchWork(batch)
  {
    if channel == [] {
      assert [] + [batch] == [batch] && [batch][1..] == [];
    } else {
      ChannelWorkAppend(channel[1..], batch);
      assert (channel + [batch])[1..] == channel[1..] + [batch];
    }
  }

  lemma {:induction false} RecordersWorkUpdate<S>(rs: seq<Recorder<S>>, i: nat, r: Recorder<S>)
    requires i < |rs|
    ensures RecordersWork(rs[i := r]) + RecorderWork(rs[i]) == RecordersWork(rs) + RecorderWork(r)
  {
    var last := |rs| - 1;
    if i < last {
      RecordersWorkUpdate(rs[..last], i, r);
      assert rs[i := r][..last] == rs[..last][i := r];
    } else {
      assert rs[i := r][..last] == rs[..last];
    }
  }

  /** Steps that bring no new samples. */
  predicate Internal<S>(e: Event<S>) {
    !e.Open? && !e.Append? && !e.Collect?
  }

  lemma InternalDecreases<S>(c: Config, v: View<S>, e: Event<S>)
    requires Inv(c, v) && Enabled(c, v, e) && Internal(e)
    ensures Work(Apply(c, v, e)) < Work(v)
  {
    match e
    case Flush(i) => RecordersWorkUpdate(v.recorders, i, v.recorders[i].(pc := Sending));
    case Send(i) =>
      RecordersWorkUpdate(v.recorders, i, Recorder(Sent, []));
      ChannelWorkAppend(v.channel, Batch(i, v.recorders[i].open));
    case Clear(i) => RecordersWorkUpdate(v.recorders, i, Recorder(Ready, []));
    case _ => hide RecordersWork;
  }

  /** Nothing is open, on its way or half read. */
  predicate AtRest<S>(v: View<S>) {
    && (forall i :: 0 <= i < |v.recorders| ==> v.recorders[i].pc.Ready? && v.recorders[i].open == [])
    && v.channel == [] && v.held.None?
  }

  predicate NoneOpened<S>(v: View<S>) {
    forall i :: 0 <= i < |v.recorders| ==> !v.recorders[i].pc.Opened?
  }

  /** Until then some step can be taken, though channel and pool are shared. */
  lemma Progress<S>(c: Config, v: View<S>) returns (e: Event<S>)
    requires Inv(c, v) && NoneOpened(v) && !AtRest(v)
    ensures Enabled(c, v, e) && Internal(e)
  {
    if v.held.Some? {
      e := if |v.read| < |v.held.value.samples| then ReadOne else PutBack;
    } else if v.channel != [] {
      e := Receive;
    } else {
      var i :| 0 <= i < |v.recorders| && !(v.recorders[i].pc.Ready? && v.recorders[i].open == []);
      var pc := v.recorders[i].pc;
      e := if pc.Ready? then Flush(i) else if pc.Sending? then Send(i) else Clear(i);
    }
  }

  lemma NoneOpenedKept<S>(c: Config, v: View<S>, e: Event<S>)
    requires NoneOpened(v) && Enabled(c, v, e) && Internal(e)
    ensures NoneOpened(Apply(c, v, e))
  {
  }

  /** From every state between two appends the flow comes to rest, with nothing recorded anew. */
  lemma Drains<S>(c: Config, v: View<S>) returns (events: seq<Event<S>>)
    requires Inv(c, v) && NoneOpened(v)
    ensures IsRun(c, v, events) && AtRest(Execute(c, v, events)) && |events| <= Work(v)
    ensures forall j: nat :: Samples(events, j) == []
    decreases Work(v)
  {
    hide Inv, NoneOpened, AtRest, Work, Enabled, Apply;
    events := [];
    if !AtRest(v) {
      var e := Progress(c, v);
      InternalDecreases(c, v, e);
      InvKept(c, v, e);
      NoneOpenedKept(c, v, e);
      var rest := Drains(c, Apply(c, v, e));
      events := [e] + rest;
      assert events[1..] == rest;
      forall j: nat ensures Samples(events, j) == [] {
        assert Samples(rest, j) == [];
        SamplesFrom(events, j);
      }
    }
  }
}
