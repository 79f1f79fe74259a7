/**
 The serve loop of `Async` and `asyncSingle` as it is written, updating its fields in place: what
 it has computed, answered and handed over when it ends, for every sequence of choices its `select`
 may make. The invariant is the one of the machine in Calculators.
 */
module ServeLoops {
  import opened Sequences
  import opened Word64
  import opened Calculators

  /** What the select chose: the timer (ignored unless it is armed), a number together with the
      duration measured, or a reader of valCh. */
  datatype Choice = Expired | Number(num: int, duration: int) | Ask

  function Numbers(choices: seq<Choice>): seq<int> {
    if choices == [] then []
    else
      var last := choices[|choices| - 1];
      Numbers(choices[..|choices| - 1]) + (if last.Number? then [last.num] else [])
  }

  function Durations(choices: seq<Choice>): seq<int> {
    if choices == [] then []
    else
      var last := choices[|choices| - 1];
      Durations(choices[..|choices| - 1]) + (if last.Number? then [last.duration] else [])
  }

  /** The totals readers see: after exactly the numbers that came before them. */
  function Answers(role: Role, choices: seq<Choice>): seq<Values> {
    if choices == [] then []
    else
      var front := choices[..|choices| - 1];
      Answers(role, front) + (if choices[|choices| - 1].Ask? then [RoleFold(role, Numbers(front))] else [])
  }

  /** How often readers asked. */
  function Asks(choices: seq<Choice>): nat {
    if choices == [] then 0 else Asks(choices[..|choices| - 1]) + (if choices[|choices| - 1].Ask? then 1 else 0)
  }

  /** There is one answer for each question, and the answer to the question at i is the fold of
      exactly the numbers before i. */
  lemma {:induction false} AnswersAreFolds(role: Role, choices: seq<Choice>, i: nat)
    requires i < |choices| && choices[i].Ask?
    ensures Asks(choices[..i]) < |Answers(role, choices)| == Asks(choices)
    ensures Answers(role, choices)[Asks(choices[..i])] == RoleFold(role, Numbers(choices[..i]))
  {
    var front := choices[..|choices| - 1];
    AnswerCount(role, front);
    if i < |front| {
      AnswersAreFolds(role, front, i);
      assert front[..i] == choices[..i];
    } else {
      assert front == choices[..i];
    }
  }

  lemma {:induction false} AnswerCount(role: Role, choices: seq<Choice>)
    ensures |Answers(role, choices)| == Asks(choices)
  {
    if choices != [] {
      AnswerCount(role, choices[..|choices| - 1]);
    }
  }

  // ---- when batches leave ----

  /** The batches given to recordFn, and the open one. */
  datatype Batching = Batching(handed: seq<seq<int>>, open: seq<int>)

  function Flushed(b: Batching): Batching {
    if b.open == [] then b else Batching(b.handed + [b.open], [])
  }

  function Recorded(b: Batching, duration: int, size: nat): Batching {
    var open := b.open + [duration];
    if |open| >= size then Batching(b.handed + [open], []) else Batching(b.handed, open)
  }

  function Batches(choices: seq<Choice>, size: nat): Batching {
    if choices == [] then Batching([], [])
    else
      var before, last := Batches(choices[..|choices| - 1], size), choices[|choices| - 1];
      match last
      case Expired => Flushed(before)
      case Number(_, duration) => Recorded(before, duration, size)
      case Ask => before
  }

  /** The batches handed over up to some k end just before choice i: nothing older is kept back. */
  ghost predicate CutAt(handed: seq<seq<int>>, choices: seq<Choice>, i: nat)
    requires i <= |choices|
  {
    exists k: nat :: k <= |handed| && Flatten(handed[..k]) == Durations(choices[..i])
  }

  /** When the timer expires everything recorded so far is handed over. */
  ghost predicate TimerFlushes(handed: seq<seq<int>>, choices: seq<Choice>) {
    forall i: nat :: i < |choices| && choices[i].Expired? ==> CutAt(handed, choices, i)
  }

  /** The k-th batch ends just before choice i. */
  predicate EndsAt(handed: seq<seq<int>>, k: nat, choices: seq<Choice>, i: nat)
    requires k < |handed| && i <= |choices|
  {
    Flatten(handed[..k + 1]) == Durations(choices[..i])
  }

  /** The k-th batch is full, or it was the timer that ended it. */
  ghost predicate DueAt(handed: seq<seq<int>>, k: nat, choices: seq<Choice>, size: nat)
    requires k < |handed|
  {
    |handed[k]| == size || exists i: nat :: i < |choices| && choices[i].Expired? && EndsAt(handed, k, choices, i)
  }

  /** A batch shorter than `size` is ended by the timer, or it is the last one, by the stop. */
  ghost predicate ShortOnlyWhenDue(handed: seq<seq<int>>, choices: seq<Choice>, size: nat) {
    forall k: nat :: k < |handed| && |handed[k]| < size ==>
      EndsAt(handed, k, choices, |choices|) || DueAt(handed, k, choices, size)
  }

  /** All samples, in batches or open, in order. */
  function Held(b: Batching): seq<int> {
    Flatten(b.handed) + b.open
  }

  predicate Sized(b: Batching, size: nat) {
    |b.open| < size && forall k :: 0 <= k < |b.handed| ==> 1 <= |b.handed[k]| <= size
  }

  lemma FlushedHolds(b: Batching, size: nat)
    requires Sized(b, size)
    ensures Sized(Flushed(b), size) && Held(Flushed(b)) == Held(b)
  {
    FlattenAppend(b.handed, b.open);
    hide Flatten;
    assert (Flatten(b.handed) + b.open) + [] == Flatten(b.handed) + b.open;
  }

  lemma RecordedHolds(b: Batching, duration: int, size: nat)
    requires Sized(b, size)
    ensures Sized(Recorded(b, duration, size), size) && Held(Recorded(b, duration, size)) == Held(b) + [duration]
  {
    var open := b.open + [duration];
    FlattenAppend(b.handed, open);
    hide Flatten;
    assert Flatten(b.handed) + open == Held(b) + [duration];
    assert (Flatten(b.handed) + open) + [] == Flatten(b.handed) + open;
  }

  lemma {:induction false} BatchesHoldAll(choices: seq<Choice>, size: nat)
    requires size > 0
    ensures Sized(Batches(choices, size), size) && Held(Batches(choices, size)) == Durations(choices)
  {
    if choices != [] {
      var front, last := choices[..|choices| - 1], choices[|choices| - 1];
      BatchesHoldAll(front, size);
      hide Sized, Held, Flushed, Recorded;
      match last
      case Expired => FlushedHolds(Batches(front, size), size);
      case Number(_, duration) => RecordedHolds(Batches(front, size), duration, size);
      case Ask =>
    }
  }

  /** Batches handed over stay as they are. */
  lemma BatchesExtend(choices: seq<Choice>, size: nat)
    requires choices != []
    ensures var before, after := Batches(choices[..|choices| - 1], size).handed, Batches(choices, size).handed;
      |before| <= |after| && after[..|before|] == before
  {
  }

  lemma CutKept(before: seq<seq<int>>, after: seq<seq<int>>, choices: seq<Choice>, i: nat)
    requires i < |choices| && |before| <= |after| && after[..|before|] == before
    requires CutAt(before, choices[..|choices| - 1], i)
    ensures CutAt(after, choices, i)
  {
    var front := choices[..|choices| - 1];
    var k: nat :| k <= |before| && Flatten(before[..k]) == Durations(front[..i]);
    assert before[..k] == after[..k] && front[..i] == choices[..i];
  }

  lemma {:induction false} TimerCuts(choices: seq<Choice>, size: nat, i: nat)
    requires size > 0 && i < |choices| && choices[i].Expired?
    ensures CutAt(Batches(choices, size).handed, choices, i)
  {
    var front := choices[..|choices| - 1];
    if i < |front| {
      TimerCuts(front, size, i);
      BatchesExtend(choices, size);
      CutKept(Batches(front, size).handed, Batches(choices, size).handed, choices, i);
    } else {
      BatchesHoldAll(front, size);
      var before, after := Batches(front, size), Batches(choices, size);
      FlattenAppend(before.handed, before.open);
      assert after.handed[..|after.handed|] == after.handed && choices[..i] == front;
      assert Flatten(before.handed) + [] == Flatten(before.handed);
    }
  }

  lemma DueKept(before: seq<seq<int>>, after: seq<seq<int>>, choices: seq<Choice>, size: nat, k: nat)
    requires choices != [] && k < |before| <= |after| && after[..|before|] == before
    requires DueAt(before, k, choices[..|choices| - 1], size)
    ensures DueAt(after, k, choices, size)
  {
    var front := choices[..|choices| - 1];
    assert before[..k + 1] == after[..k + 1] && before[k] == after[k];
    if |before[k]| != size {
      var i: nat :| i < |front| && front[i].Expired? && EndsAt(before, k, front, i);
      assert front[..i] == choices[..i] && EndsAt(after, k, choices, i);
    }
  }

  lemma {:induction false} BatchIsDue(choices: seq<Choice>, size: nat, k: nat)
    requires size > 0 && k < |Batches(choices, size).handed|
    ensures DueAt(Batches(choices, size).handed, k, choices, size)
  {
    var front, last := choices[..|choices| - 1], choices[|choices| - 1];
    var before, after := Batches(front, size), Batches(choices, size);
    BatchesExtend(choices, size);
    BatchesHoldAll(front, size);
    if k < |before.handed| {
      BatchIsDue(front, size, k);
      DueKept(before.handed, after.handed, choices, size, k);
    } else if last.Expired? {
      FlattenAppend(before.handed, before.open);
      assert after.handed[..k + 1] == after.handed && choices[..|front|] == front;
      assert EndsAt(after.handed, k, choices, |front|);
    }
  }

  /** What serve hands over, the deferred flush included. */
  lemma BatchesLeaveWhenDue(choices: seq<Choice>, size: nat)
    requires size > 0
    ensures var handed := Flushed(Batches(choices, size)).handed;
      && Flatten(handed) == Durations(choices)
      && TimerFlushes(handed, choices) && ShortOnlyWhenDue(handed, choices, size)
      && forall k :: 0 <= k < |handed| ==> 1 <= |handed[k]| <= size
  {
    var b := Batches(choices, size);
    var handed := Flushed(b).handed;
    BatchesHoldAll(choices, size);
    FlushedHolds(b, size);
    assert Flatten(handed) + [] == Flatten(handed);
    assert handed[..|b.handed|] == b.handed;
    hide Flatten, Durations, Batches;
    forall i: nat | i < |choices| && choices[i].Expired? ensures CutAt(handed, choices, i) {
      TimerCuts(choices, size, i);
      SameCut(b.handed, handed, choices, i);
    }
    forall k: nat | k < |handed| ensures EndsAt(handed, k, choices, |choices|) || DueAt(handed, k, choices, size) {
      if k < |b.handed| {
        BatchIsDue(choices, size, k);
        SameDue(b.handed, handed, choices, size, k);
      } else {
        assert handed[..k + 1] == handed && choices[..|choices|] == choices;
      }
    }
  }

  lemma SameCut(before: seq<seq<int>>, after: seq<seq<int>>, choices: seq<Choice>, i: nat)
    requires i <= |choices| && |before| <= |after| && after[..|before|] == before && CutAt(before, choices, i)
    ensures CutAt(after, choices, i)
  {
    var k: nat :| k <= |before| && Flatten(before[..k]) == Durations(choices[..i]);
    assert before[..k] == after[..k];
  }

  lemma SameDue(before: seq<seq<int>>, after: seq<seq<int>>, choices: seq<Choice>, size: nat, k: nat)
    requires k < |before| <= |after| && after[..|before|] == before && DueAt(before, k, choices, size)
    ensures DueAt(after, k, choices, size)
  {
    assert before[..k + 1] == after[..k + 1] && before[k] == after[k];
    if |before[k]| != size {
      var i: nat :| i < |choices| && choices[i].Expired? && EndsAt(before, k, choices, i);
      assert EndsAt(after, k, choices, i);
    }
  }

  class ServeLoop {
    const role: Role
    const size: nat
    var vals: Values
    var batch: seq<int>
    var timer: bool
    var handed: seq<seq<int>>   // the calls of recordFn

    ghost var applied: seq<int>
    ghost var sampled: seq<int>

    /** The server at pc, with nothing left in its closed channel. */
    ghost function View(pc: Pc): Server
      reads this
    {
      Server(role, [], true, pc, vals, applied, batch, timer, sampled, handed)
    }

    ghost predicate Valid()
      reads this
    {
      size > 0 && Sound(View(Select), 0, size)
    }

    constructor (role: Role, size: nat)
      requires size > 0
      ensures Valid() && applied == [] && sampled == [] && handed == [] && batch == [] && this.role == role && this.size == size
    {
      this.role := role;
      this.size := size;
      vals, batch, timer, handed := ZERO, [], false, [];
      applied, sampled := [], [];
    }

    /** flush */
    method Flush()
      requires size > 0 && Batched(View(Select), size)
      modifies this`batch, this`timer, this`handed
      ensures Batched(View(Select), size)
      ensures Batching(handed, batch) == Flushed(old(Batching(handed, batch)))
      ensures old(batch) != [] ==> !timer
      ensures old(batch) == [] ==> timer == old(timer)
    {
      hide Flatten, RoleFold;
      if batch == [] {
        return;
      }
      FlattenAppend(handed, batch);
      handed := handed + [batch];
      batch := [];
      timer := false;
    }

    /** calculate: one operator, or both one after the other. */
    method Calculate(num: int)
      requires Valid()
      modifies this`vals
      ensures vals == RoleFold(role, applied + [num])
    {
      FoldAppend(applied, num);
      if role != SubOnly {
        vals := vals.(sum := AddOp(vals.sum, num));
      }
      if role != AddOnly {
        vals := vals.(sub := SubOp(vals.sub, num));
      }
    }

    /** record, for the number that was just applied. */
    method Record(num: int, duration: int)
      requires size > 0 && Batched(View(Select), size) && Timed(View(Select), size)
      requires vals == RoleFold(role, applied + [num])
      modifies this`batch, this`timer, this`handed, this`applied, this`sampled
      ensures Valid()
      ensures applied == old(applied) + [num] && sampled == old(sampled) + [duration]
      ensures Batching(handed, batch) == Recorded(old(Batching(handed, batch)), duration, size)
    {
      hide Batched, Timed, RoleFold;
      Append(num, duration);
      if |batch| >= size {
        Flush();
      }
      BecomesValid();
    }

    /** record up to its append. */
    method Append(num: int, duration: int)
      requires size > 0 && Batched(View(Select), size) && Timed(View(Select), size)
      modifies this`batch, this`timer, this`applied, this`sampled
      ensures Batched(View(Select), size) && timer && batch == old(batch) + [duration] && |batch| <= size
      ensures applied == old(applied) + [num] && sampled == old(sampled) + [duration]
    {
      hide Flatten, RoleFold;
      if batch == [] {
        timer := true;
      }
      assert Flatten(handed) + (batch + [duration]) == (Flatten(handed) + batch) + [duration];
      batch := batch + [duration];
      applied, sampled := applied + [num], sampled + [duration];
    }

    lemma BecomesValid()
      requires size > 0 && Batched(View(Select), size) && vals == RoleFold(role, applied)
      requires timer == (batch != []) && |batch| < size
      ensures Valid()
    {
    }

    method OnNumber(num: int, duration: int)
      requires Valid()
      modifies this
      ensures Valid()
      ensures applied == old(applied) + [num] && sampled == old(sampled) + [duration]
      ensures Batching(handed, batch) == Recorded(old(Batching(handed, batch)), duration, size)
    {
      hide Flatten, RoleFold;
      Calculate(num);
      Record(num, duration);
    }

    /** serve, from the start to the close of done. */
    method Serve(choices: seq<Choice>) returns (answers: seq<Values>)
      requires Valid() && applied == [] && sampled == [] && handed == [] && batch == []
      modifies this
      ensures vals == RoleFold(role, Numbers(choices))
      ensures answers == Answers(role, choices)
      ensures Flatten(handed) == Durations(choices) && batch == [] && !timer
      ensures forall i :: 0 <= i < |handed| ==> 1 <= |handed[i]| <= size
      ensures TimerFlushes(handed, choices) && ShortOnlyWhenDue(handed, choices, size)
    {
      answers := [];
      assert choices[..0] == [];
      for i := 0 to |choices|
        invariant Valid()
        invariant applied == Numbers(choices[..i]) && sampled == Durations(choices[..i])
        invariant answers == Answers(role, choices[..i])
        invariant Batching(handed, batch) == Batches(choices[..i], size)
      {
        hide RoleFold, Flatten, Flushed, Recorded;
        assert choices[..i + 1][..i] == choices[..i];
        match choices[i]
        case Expired =>
          if timer {
            timer := false;
            Flush();
          } else {
            NothingToFlush();
          }
        case Number(num, duration) => OnNumber(num, duration);
        case Ask => answers := answers + [vals];
      }
      assert choices[..|choices|] == choices;
      timer := false;
      Flush();
      BatchesLeaveWhenDue(choices, size);
    }

    /** While the timer is not armed no batch is open. */
    lemma NothingToFlush()
      requires Valid() && !timer
      ensures Flushed(Batching(handed, batch)) == Batching(handed, batch)
    {
      hide Folded, Batched;
    }
  }
}
