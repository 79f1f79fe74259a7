/**
 The recycled arrays behind metric batches: the pool, and the recorder that fills them. How
 recorders, channel and aggregator interleave over them is class Flows.Flow.
 */
module Batches {
  import opened Options
  import opened Sequences
  import opened Slices
  import opened BatchFlows

  /** sync.Pool of arrays; `free` are the pointers put back and not yet taken or collected. */
  class BatchPool<T(0)> {
    const batchSize: nat
    var free: seq<array<T>>

    ghost predicate Valid()
      reads this
    {
      && batchSize > 0
      && (forall i :: 0 <= i < |free| ==> free[i].Length == batchSize)
      && forall i, j :: 0 <= i < j < |free| ==> free[i] != free[j]
    }

    /** NewBatchPool; a batch size of zero panics there. */
    constructor (batchSize: nat)
      requires batchSize > 0
      ensures Valid() && free == [] && this.batchSize == batchSize
    {
      this.batchSize := batchSize;
      free := [];
    }

    /** Any pooled array, or a new one when the pool is, or pretends to be, empty. */
    method Get() returns (s: Slice<T>)
      requires Valid()
      modifies this
      ensures Valid() && s.len == 0 && s.arr.Length == batchSize
      ensures s.arr in old(free) || fresh(s.arr)
      ensures multiset(free) == multiset(old(free)) - multiset{s.arr}
    {
      var i :| 0 <= i <= |free|;
      if i < |free| {
        s := Slice(free[i], 0);
        ghost var rest := free[..i] + free[i + 1..];
        SplitAt(free, i);
        assert forall k :: 0 <= k < |rest| ==> rest[k] == free[if k < i then k else k + 1];
        free := free[..i] + free[i + 1..];
        assert free == rest;
      } else {
        var arr := new T[batchSize];
        s := Slice(arr, 0);
        assert multiset(free)[arr] == 0;
      }
    }

    /** Takes back an array of the right capacity; any other is left to the collector. */
    method Put(s: Slice<T>)
      modifies this
      ensures free == if s.arr.Length == batchSize then old(free) + [s.arr] else old(free)
    {
      if s.arr.Length == batchSize {
        free := free + [s.arr];
      }
    }

    /** The garbage collector may empty the pool at any time. */
    method Collect(i: nat)
      requires Valid() && i <= |free|
      modifies this
      ensures Valid() && free == old(free[i..])
    {
      free := free[i..];
    }
  }

  /** A recorder, cut where its goroutine can be interrupted by others that use the pool. */
  class MetricRecorder<S(0)> {
    const pool: BatchPool<S>
    const batchSize: nat
    var batch: Option<Slice<S>>
    var timer: bool
    ghost var pc: Pc

    /** After the send the recorder still points to the array, which is no longer its own. */
    ghost predicate Valid()
      reads this, pool
    {
      && pool.Valid() && batchSize == pool.batchSize
      && (batch.Some? ==> batch.value.arr.Length == batchSize)
      && match pc
         case Ready => timer == batch.Some? && (batch.Some? ==> 0 < batch.value.len < batchSize)
         case Opened => timer && batch.Some? && batch.value.len == 0
         case Sending => batch.Some? && 0 < batch.value.len <= batchSize
         case Sent => batch.Some?
    }

    /** The recorder has an array of its own, that of its batch. */
    ghost predicate Owner()
      reads this
    {
      batch.Some? && !pc.Sent?
    }

    /** The samples of the open batch, [] for none. */
    ghost function Open(): seq<S>
      reads this, if Owner() then {batch.value.arr} else {}
      requires Owner() ==> batch.value.len <= batch.value.arr.Length
    {
      if Owner() then batch.value.arr[..batch.value.len] else []
    }

    constructor (pool: BatchPool<S>)
      requires pool.Valid()
      ensures Valid() && pc == Ready && batch == None && this.pool == pool
    {
      this.pool := pool;
      batchSize := pool.batchSize;
      batch := None;
      timer := false;
      pc := Ready;
    }

    /** The first half of record, when no batch is open: makeBatch, and the timer is armed. */
    method MakeBatch()
      requires Valid() && pc.Ready? && batch == None
      modifies this, pool
      ensures Valid() && pc == Opened
      ensures batch.value.arr in old(pool.free) || fresh(batch.value.arr)
      ensures multiset(pool.free) == multiset(old(pool.free)) - multiset{batch.value.arr}
    {
      var s := pool.Get();
      batch := Some(s);
      timer := true;
      pc := Opened;
    }

    /** The second half: the append, in place because flushing keeps every batch below its
        capacity; a full batch goes to recordFn. */
    method Add(sample: S)
      requires Valid() && (pc.Opened? || (pc.Ready? && batch.Some?))
      modifies this, batch.value.arr
      ensures Valid() && batch.Some? && batch.value.arr == old(batch).value.arr
      ensures Open() == old(Open()) + [sample]
      ensures pc == Appended(batchSize, old(Open()), sample).pc
    {
      var s := Slices.Append(batch.value, sample);
      batch := Some(s);
      pc := if s.len >= batchSize then Sending else Ready;
    }

    /** flush is called because the timer fired or the calculator stops; `out` goes to recordFn. */
    method StartFlush() returns (out: Slice<S>)
      requires Valid() && pc.Ready? && batch.Some?
      modifies this
      ensures Valid() && pc == Sending && batch == old(batch) == Some(out)
    {
      timer := false;
      out := batch.value;
      pc := Sending;
    }

    /** The rest of flush, once recordFn has returned. */
    method Clear()
      requires Valid() && pc.Sent?
      modifies this
      ensures Valid() && pc == Ready && batch == None && !timer
    {
      batch := None;
      timer := false;
      pc := Ready;
    }
  }
}
