/**
 The goroutine behind `Async` and `asyncSingle`, as one machine: its number channel, its
 totals, its open metric batch with the flush timer, and the batches it has handed over.

 An `Async` calculator is one such server in the role `Both`; a `Parallel` calculator is a
 pair of them, `AddOnly` and `SubOnly`. What a server does alone is a function here; how
 servers, clients, printer and aggregator interleave is module ServerSystem.
 */
module Calculators {
  import opened Sequences
  import opened Word64

  datatype Role = Both | AddOnly | SubOnly

  /** Where the server goroutine stands.
      `Select`: at the head of the loop. `Calc`, `CalcSub`: a received number is in hand, before
      and after the first of the two operators. `Flushing`: inside recordFn. `Exiting`: the loop
      was left, the deferred flush has not finished. `Stopped`: valCh and done are closed. */
  datatype Pc = Select | Calc(num: int) | CalcSub(num: int) | Flushing | Exiting | Stopped

  /** `queue`, `closed`: numCh. `open`, `timer`: the metric batch being filled ([] for nil) and
      whether flushTm is armed. `applied`, `sampled`, `handed`: what was folded into `vals`, the
      durations measured and the batches given to recordFn, since the start. */
  datatype Server = Server(
    role: Role,
    queue: seq<int>,
    closed: bool,
    pc: Pc,
    vals: Values,
    applied: seq<int>,
    open: seq<int>,
    timer: bool,
    sampled: seq<int>,
    handed: seq<seq<int>>)

  function NewServer(role: Role): Server {
    Server(role, [], false, Select, ZERO, [], [], false, [], [])
  }

  // ---- what the server holds ----

  function InHand(sv: Server): seq<int> {
    match sv.pc
    case Calc(num) => [num]
    case CalcSub(num) => [num]
    case _ => []
  }

  /** Every number the server has taken responsibility for, oldest first. */
  function Carried(sv: Server): seq<int> {
    sv.applied + (InHand(sv) + sv.queue)
  }

  /** The totals a server of this role holds after a log: the other operator's stays zero. */
  function RoleFold(role: Role, log: seq<int>): Values {
    match role
    case Both => Fold(log)
    case AddOnly => Values(Fold(log).sum, 0)
    case SubOnly => Values(0, Fold(log).sub)
  }

  // ---- the moves of the serve loop ----

  /** `num := <-numCh` from the buffer. */
  function Receive(sv: Server): Server
    requires sv.queue != []
  {
    sv.(queue := sv.queue[1..], pc := Calc(sv.queue[0]))
  }

  /** One operator call; the last one of a number is followed by `record`. */
  function Compute(sv: Server, duration: int, size: nat): Server
    requires sv.pc.Calc? || sv.pc.CalcSub?
  {
    var num := sv.pc.num;
    if sv.pc.CalcSub? then
      Record(sv.(vals := sv.vals.(sub := SubOp(sv.vals.sub, num))), num, duration, size)
    else match sv.role
      case Both => sv.(vals := sv.vals.(sum := AddOp(sv.vals.sum, num)), pc := CalcSub(num))
      case AddOnly => Record(sv.(vals := sv.vals.(sum := AddOp(sv.vals.sum, num))), num, duration, size)
      case SubOnly => Record(sv.(vals := sv.vals.(sub := SubOp(sv.vals.sub, num))), num, duration, size)
  }

  /** metricRecorder.record: open a batch and arm the timer if there is none, append, and flush
      when the batch is full. */
  function Record(sv: Server, num: int, duration: int, size: nat): Server {
    var open := sv.open + [duration];
    sv.(applied := sv.applied + [num],
        sampled := sv.sampled + [duration],
        open := open,
        timer := sv.timer || sv.open == [],
        pc := if |open| >= size then Flushing else Select)
  }

  /** `<-flushTm.C`: the timer has expired; flush returns at once when no batch is open. */
  function FireTimer(sv: Server): Server {
    sv.(timer := false, pc := if sv.open == [] then sv.pc else Flushing)
  }

  /** The send inside recordFn succeeded: the batch is gone and the timer is stopped. */
  function HandOver(sv: Server): Server {
    sv.(handed := sv.handed + [sv.open], open := [], timer := false,
        pc := if sv.pc.Exiting? then Exiting else Select)
  }

  /** The loop is left because numCh is closed and drained; the timer is stopped first. */
  function Leave(sv: Server): Server {
    sv.(pc := Exiting, timer := false)
  }

  /** The moves of a server goroutine. `Call` carries the measured duration; `HandBatch` is the
      send inside recordFn; `Quit` leaves the loop, `Finish` closes valCh and done. */
  datatype Move = Recv | Call(duration: int) | Expire | HandBatch | Quit | Finish

  predicate CanMove(sv: Server, move: Move) {
    match move
    case Recv => sv.pc.Select? && sv.queue != []
    case Call(_) => sv.pc.Calc? || sv.pc.CalcSub?
    case Expire => sv.pc.Select? && sv.timer
    case HandBatch => (sv.pc.Flushing? || sv.pc.Exiting?) && sv.open != []
    case Quit => sv.pc.Select? && sv.closed && sv.queue == []
    case Finish => sv.pc.Exiting? && sv.open == []
  }

  function Moved(sv: Server, move: Move, size: nat): Server
    requires CanMove(sv, move)
  {
    match move
    case Recv => Receive(sv)
    case Call(duration) => Compute(sv, duration, size)
    case Expire => FireTimer(sv)
    case HandBatch => HandOver(sv)
    case Quit => Leave(sv)
    case Finish => sv.(pc := Stopped)
  }

  /** A client's send of num goes through: into the buffer, or hand to hand when there is none. */
  function Offer(sv: Server, num: int, cap: nat): Server {
    if cap > 0 then sv.(queue := sv.queue + [num]) else sv.(pc := Calc(num))
  }

  // ---- what every move keeps ----

  /** The totals are the fold of what was applied. Between its two operators an `Async` server
      is torn; it never is at `Select`, the only place from which it can be read. */
  predicate Folded(sv: Server) {
    if sv.pc.CalcSub? then
      && sv.role == Both
      && sv.vals == Values(AddOp(Fold(sv.applied).sum, sv.pc.num), Fold(sv.applied).sub)
    else
      sv.vals == RoleFold(sv.role, sv.applied)
  }

  /** Every sample is in exactly one batch, in order, and batches have 1..size samples. */
  predicate Batched(sv: Server, size: nat) {
    && Flatten(sv.handed) + sv.open == sv.sampled
    && |sv.sampled| == |sv.applied|
    && |sv.open| <= size
    && forall i :: 0 <= i < |sv.handed| ==> 1 <= |sv.handed[i]| <= size
  }

  /** In the loop the timer is armed exactly while a batch is open. */
  predicate Timed(sv: Server, size: nat) {
    match sv.pc
    case Flushing => sv.open != []
    case Exiting => !sv.timer && |sv.open| < size
    case Stopped => !sv.timer && sv.open == []
    case _ => sv.timer == (sv.open != []) && |sv.open| < size
  }

  /** The loop is left only when the channel is closed and drained. */
  predicate Drained(sv: Server) {
    sv.pc.Exiting? || sv.pc.Stopped? ==> sv.closed && sv.queue == []
  }

  predicate Sound(sv: Server, cap: nat, size: nat) {
    && Folded(sv)
    && Batched(sv, size)
    && Timed(sv, size)
    && Drained(sv)
    && |sv.queue| <= cap
  }

  lemma NewIsSound(role: Role, cap: nat, size: nat)
    requires size > 0
    ensures Sound(NewServer(role), cap, size)
  {
  }

  lemma ReceiveIsSound(sv: Server, cap: nat, size: nat)
    requires Sound(sv, cap, size) && sv.pc.Select? && sv.queue != []
    ensures Sound(Receive(sv), cap, size)
    ensures Carried(Receive(sv)) == Carried(sv)
  {
    assert sv.queue == [sv.queue[0]] + sv.queue[1..];
  }

  lemma RecordIsSound(sv: Server, num: int, duration: int, cap: nat, size: nat)
    requires size > 0
    requires Batched(sv, size) && (sv.timer == (sv.open != [])) && |sv.open| < size && |sv.queue| <= cap
    requires sv.vals == RoleFold(sv.role, sv.applied + [num])
    ensures Sound(Record(sv, num, duration, size), cap, size)
  {
    assert Flatten(sv.handed) + (sv.open + [duration]) == (Flatten(sv.handed) + sv.open) + [duration];
  }

  lemma ComputeIsSound(sv: Server, duration: int, cap: nat, size: nat)
    requires size > 0
    requires Sound(sv, cap, size) && (sv.pc.Calc? || sv.pc.CalcSub?)
    ensures Sound(Compute(sv, duration, size), cap, size)
    ensures Carried(Compute(sv, duration, size)) == Carried(sv)
  {
    if sv.pc.CalcSub? || sv.role != Both {
      var num, vals := sv.pc.num, RoleFold(sv.role, sv.applied + [sv.pc.num]);
      ComputeIsRecord(sv, duration, size);
      hide Compute, Fold, RoleFold, Folded, Batched;
      RecordIsSound(sv.(vals := vals), num, duration, cap, size);
      hide Sound;
      assert (sv.applied + [num]) + ([] + sv.queue) == sv.applied + ([num] + sv.queue);
    } else {
      hide Fold, Batched;
    }
  }

  /** The last operator call of a number completes the fold and records. */
  lemma ComputeIsRecord(sv: Server, duration: int, size: nat)
    requires Folded(sv) && (sv.pc.CalcSub? || (sv.pc.Calc? && sv.role != Both))
    ensures var num := sv.pc.num;
      Compute(sv, duration, size) == Record(sv.(vals := RoleFold(sv.role, sv.applied + [num])), num, duration, size)
  {
    FoldAppend(sv.applied, sv.pc.num);
    hide Record, Fold, AddOp, SubOp;
    var vals := RoleFold(sv.role, sv.applied + [sv.pc.num]);
    if sv.pc.CalcSub? {
      assert vals == sv.vals.(sub := SubOp(sv.vals.sub, sv.pc.num));
    } else {
      assert vals == if sv.role.AddOnly? then sv.vals.(sum := AddOp(sv.vals.sum, sv.pc.num))
                     else sv.vals.(sub := SubOp(sv.vals.sub, sv.pc.num));
    }
  }

  lemma HandOverIsSound(sv: Server, cap: nat, size: nat)
    requires size > 0
    requires Sound(sv, cap, size) && (sv.pc.Flushing? || sv.pc.Exiting?) && sv.open != []
    ensures Sound(HandOver(sv), cap, size)
    ensures Carried(HandOver(sv)) == Carried(sv)
  {
    FlattenAppend(sv.handed, sv.open);
  }

  /** The server is the same one, some moves later. */
  predicate Extends(sv: Server, sv': Server) {
    && sv'.role == sv.role
    && sv'.closed == sv.closed
    && sv.applied <= sv'.applied
    && (sv.pc.Stopped? ==> sv' == sv)
  }

  lemma MoveKeepsSound(sv: Server, move: Move, cap: nat, size: nat)
    requires size > 0 && Sound(sv, cap, size) && CanMove(sv, move)
    ensures Sound(Moved(sv, move, size), cap, size)
    ensures Carried(Moved(sv, move, size)) == Carried(sv)
  {
    match move
    case Recv => ReceiveIsSound(sv, cap, size);
    case Call(duration) => ComputeIsSound(sv, duration, cap, size);
    case HandBatch => HandOverIsSound(sv, cap, size);
    case _ =>
  }

  lemma MoveExtends(sv: Server, move: Move, size: nat)
    requires CanMove(sv, move)
    ensures Extends(sv, Moved(sv, move, size))
    ensures Moved(sv, move, size).handed == if move.HandBatch? then sv.handed + [sv.open] else sv.handed
  {
  }

  lemma MoveIsSound(sv: Server, move: Move, cap: nat, size: nat)
    requires size > 0 && Sound(sv, cap, size) && CanMove(sv, move)
    ensures Sound(Moved(sv, move, size), cap, size)
    ensures Carried(Moved(sv, move, size)) == Carried(sv)
    ensures Extends(sv, Moved(sv, move, size)) && !sv.pc.Stopped?
    ensures Moved(sv, move, size).handed == if move.HandBatch? then sv.handed + [sv.open] else sv.handed
  {
    MoveKeepsSound(sv, move, cap, size);
    MoveExtends(sv, move, size);
    assert !sv.pc.Stopped?;
  }

  /** A batch goes to recordFn in the loop because the timer expired, or because a sample made it
      full; and then it does. */
  lemma BatchGoesWhenDue(sv: Server, move: Move, cap: nat, size: nat)
    requires size > 0 && Sound(sv, cap, size) && CanMove(sv, move) && !sv.pc.Flushing?
    ensures Moved(sv, move, size).pc.Flushing? <==>
      move.Expire? || (move.Call? && |Moved(sv, move, size).open| == size)
  {
    hide Folded, Batched, Drained;
  }

  lemma OfferIsSound(sv: Server, num: int, cap: nat, size: nat)
    requires Sound(sv, cap, size) && !sv.closed && (if cap > 0 then |sv.queue| < cap else sv.pc.Select?)
    ensures Sound(Offer(sv, num, cap), cap, size)
    ensures Carried(Offer(sv, num, cap)) == Carried(sv) + [num]
    ensures Extends(sv, Offer(sv, num, cap)) && Offer(sv, num, cap).handed == sv.handed
  {
    if cap > 0 {
      assert sv.applied + (InHand(sv) + (sv.queue + [num])) == (sv.applied + (InHand(sv) + sv.queue)) + [num];
    } else {
      assert sv.queue == [];
    }
  }
}
