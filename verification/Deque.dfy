/**
 The double-ended queue on a ring buffer: it refines a mathematical sequence under every
 operation, keeps every slot outside the live window zero, and copies fewer than two elements
 for each push.
 */
module Deques {

  import opened Slices

  function Max(a: nat, b: nat): nat {
    if a >= b then a else b
  }

  /** An index up to twice the buffer, wrapped as the methods do: one conditional subtraction. */
  function Ring(p: nat, n: nat): nat {
    if p >= n then p - n else p
  }

  /** The live window of a ring, oldest element first. */
  function Live<T>(ring: seq<T>, front: nat, size: nat): (live: seq<T>)
    requires InRing(|ring|, front, size)
    ensures |live| == size
    ensures forall i :: 0 <= i < size ==> live[i] == ring[Ring(front + i, |ring|)]
  {
    seq(size, i requires 0 <= i < size => ring[Ring(front + i, |ring|)])
  }

  predicate InRing(n: nat, front: nat, size: nat) {
    size <= n && (front < n || front == size == 0)
  }

  /** Slot p of n belongs to the live window. */
  predicate InWindow(p: nat, n: nat, front: nat, size: nat) {
    if p >= front then p < front + size else p + n < front + size
  }

  /** Every slot outside the live window holds zero. */
  ghost predicate ZeroOutside<T>(ring: seq<T>, front: nat, size: nat, zero: T)
  {
    forall p :: 0 <= p < |ring| && !InWindow(p, |ring|, front, size) ==> ring[p] == zero
  }

  /** Writing the slot after the window and taking it in: PushBack. */
  lemma Extend<T>(ring: seq<T>, front: nat, size: nat, v: T, zero: T)
    requires InRing(|ring|, front, size) && size < |ring| && ZeroOutside(ring, front, size, zero)
    ensures var ring' := ring[Ring(front + size, |ring|) := v];
      Live(ring', front, size + 1) == Live(ring, front, size) + [v] && ZeroOutside(ring', front, size + 1, zero)
  {
  }

  /** Writing the slot before the window and taking it in: PushFront. */
  lemma ExtendLeft<T>(ring: seq<T>, front: nat, size: nat, v: T, zero: T)
    requires InRing(|ring|, front, size) && size < |ring| && ZeroOutside(ring, front, size, zero)
    ensures var front' := if front == 0 then |ring| - 1 else front - 1;
      && Live(ring[front' := v], front', size + 1) == [v] + Live(ring, front, size)
      && ZeroOutside(ring[front' := v], front', size + 1, zero)
  {
    var n := |ring|;
    var front' := if front == 0 then n - 1 else front - 1;
    forall i | 0 <= i <= size ensures Live(ring[front' := v], front', size + 1)[i] == ([v] + Live(ring, front, size))[i] {
      assert 0 < i ==> Ring(front' + i, n) == Ring(front + (i - 1), n) != front';
    }
  }

  /** Zeroing the first slot and letting it go: PopFront. */
  lemma Shrink<T>(ring: seq<T>, front: nat, size: nat, zero: T)
    requires InRing(|ring|, front, size) && 0 < size && ZeroOutside(ring, front, size, zero)
    ensures var front' := Ring(front + 1, |ring|);
      && Live(ring[front := zero], front', size - 1) == Live(ring, front, size)[1..]
      && ZeroOutside(ring[front := zero], front', size - 1, zero)
  {
    var n := |ring|;
    var front' := Ring(front + 1, n);
    forall i | 1 <= i < size ensures Live(ring[front := zero], front', size - 1)[i - 1] == Live(ring, front, size)[i] {
      assert Ring(front' + (i - 1), n) == Ring(front + i, n) != front;
    }
  }

  /** Zeroing the last slot and letting it go: PopBack. */
  lemma ShrinkRight<T>(ring: seq<T>, front: nat, size: nat, zero: T)
    requires InRing(|ring|, front, size) && 0 < size && ZeroOutside(ring, front, size, zero)
    ensures var ring' := ring[Ring(front + size - 1, |ring|) := zero];
      && Live(ring', front, size - 1) == Live(ring, front, size)[..size - 1]
      && ZeroOutside(ring', front, size - 1, zero)
  {
  }

  /** Writing inside the window: Set. */
  lemma Overwrite<T>(ring: seq<T>, front: nat, size: nat, idx: nat, v: T, zero: T)
    requires InRing(|ring|, front, size) && idx < size && ZeroOutside(ring, front, size, zero)
    ensures var ring' := ring[Ring(front + idx, |ring|) := v];
      Live(ring', front, size) == Live(ring, front, size)[idx := v] && ZeroOutside(ring', front, size, zero)
  {
  }

  /** The live window lies in one piece, or in two with the seam at the end of the buffer. */
  lemma LivePieces<T>(ring: seq<T>, front: nat, size: nat)
    requires InRing(|ring|, front, size)
    ensures front + size <= |ring| ==> Live(ring, front, size) == ring[front..front + size]
    ensures front + size >= |ring| ==> Live(ring, front, size) == ring[front..] + ring[..front + size - |ring|]
  {
  }

  /** Elements at the start of an otherwise zero buffer: what growth produces. */
  lemma Straight<T>(ring: seq<T>, live: seq<T>, zero: T)
    requires |live| < |ring| && ring[..|live|] == live
    requires forall p :: |live| <= p < |ring| ==> ring[p] == zero
    ensures Live(ring, 0, |live|) == live && ZeroOutside(ring, 0, |live|, zero)
  {
    LivePieces(ring, 0, |live|);
  }

  class Deque<T> {
    const zero: T
    var buf: array<T>
    var front: nat
    var size: nat

    // How often the deque was pushed to, and how many elements growth has copied.
    ghost var pushes: nat
    ghost var copied: nat

    /** Indices in range, and every slot outside the live window holds the zero value. */
    ghost predicate Valid()
      reads this, buf
    {
      InRing(buf.Length, front, size) && ZeroOutside(buf[..], front, size, zero)
    }

    ghost function Contents(): seq<T>
      reads this, buf
      requires Valid()
    {
      Live(buf[..], front, size)
    }

    /** Growth has been by doubling from 16 only, and only when full. */
    ghost predicate Amortized()
      reads this, buf
    {
      && size <= pushes
      && (buf.Length == 0 ==> copied == 0 && pushes == 0)
      && (buf.Length > 0 ==> copied + 16 == buf.Length && pushes > 0)
      && buf.Length <= Max(16, 2 * pushes)
    }

    /** The zero Deque. */
    constructor (zero: T)
      ensures Valid() && Contents() == [] && this.zero == zero && fresh(buf)
      ensures Amortized() && pushes == 0
    {
      this.zero := zero;
      buf := new T[0];
      front, size, pushes, copied := 0, 0, 0, 0;
    }

    /** NewDequeFrom: takes over the slice's array; everything in it is live. */
    constructor From(zero: T, arr: array<T>)
      ensures Valid() && Contents() == arr[..] && this.zero == zero && buf == arr
    {
      this.zero := zero;
      buf := arr;
      front, size, pushes, copied := 0, arr.Length, arr.Length, 0;
      new;
      LivePieces(buf[..], front, size);
    }

    method Front() returns (r: Try<T>)
      requires Valid()
      ensures r == if Contents() == [] then Panic else Done(Contents()[0])
    {
      if size == 0 {
        return Panic;
      }
      return Done(buf[front]);
    }

    method Back() returns (r: Try<T>)
      requires Valid()
      ensures r == if Contents() == [] then Panic else Done(Contents()[|Contents()| - 1])
    {
      if size == 0 {
        return Panic;
      }
      var back := front + size - 1;
      if back >= buf.Length {
        back := back - buf.Length;
      }
      return Done(buf[back]);
    }

    /** A push begins by growing a full buffer. */
    method MakeRoom()
      requires Valid()
      modifies this
      ensures Valid() && Contents() == old(Contents()) && size == old(size) < buf.Length
      ensures buf == old(buf) || fresh(buf)
      ensures old(size) < old(buf.Length) ==> buf == old(buf)
      ensures pushes == old(pushes) + 1 && (old(Amortized()) ==> Amortized() && size < pushes)
    {
      hide Live, ZeroOutside;
      pushes := pushes + 1;
      if size == buf.Length {
        Regrow(1);
      }
    }

    method PushBack(v: T)
      requires Valid()
      modifies this, buf
      ensures Valid() && Contents() == old(Contents()) + [v]
      ensures buf == old(buf) || fresh(buf)
      ensures old(size) < old(buf.Length) ==> buf == old(buf)
      ensures pushes == old(pushes) + 1 && (old(Amortized()) ==> Amortized())
    {
      hide Live, ZeroOutside;
      MakeRoom();
      var back := front + size;
      if back >= buf.Length {
        back := back - buf.Length;
      }
      Extend(buf[..], front, size, v, zero);
      buf[back] := v;
      size := size + 1;
    }

    method PushFront(v: T)
      requires Valid()
      modifies this, buf
      ensures Valid() && Contents() == [v] + old(Contents())
      ensures buf == old(buf) || fresh(buf)
      ensures old(size) < old(buf.Length) ==> buf == old(buf)
      ensures pushes == old(pushes) + 1 && (old(Amortized()) ==> Amortized())
    {
      hide Live, ZeroOutside;
      MakeRoom();
      ghost var ring := buf[..];
      ExtendLeft(ring, front, size, v, zero);
      if front == 0 {
        front := buf.Length - 1;
      } else {
        front := front - 1;
      }
      buf[front] := v;
      assert buf[..] == ring[front := v];
      size := size + 1;
    }

    method PopFront() returns (r: Try<T>)
      requires Valid()
      modifies this, buf
      ensures Valid() && buf == old(buf)
      ensures old(Contents()) == [] ==> r == Panic && Contents() == []
      ensures old(Contents()) != [] ==> r == Done(old(Contents())[0]) && Contents() == old(Contents())[1..]
      ensures pushes == old(pushes) && (old(Amortized()) ==> Amortized())
    {
      hide Live, ZeroOutside;
      r := Front();
      if r.Panic? {
        return;
      }
      Shrink(buf[..], front, size, zero);
      buf[front] := zero;
      front := front + 1;
      if front == buf.Length {
        front := 0;
      }
      size := size - 1;
    }

    method PopBack() returns (r: Try<T>)
      requires Valid()
      modifies this, buf
      ensures Valid() && buf == old(buf)
      ensures old(Contents()) == [] ==> r == Panic && Contents() == []
      ensures old(Contents()) != [] ==>
        r == Done(old(Contents())[|old(Contents())| - 1]) && Contents() == old(Contents())[..|old(Contents())| - 1]
      ensures pushes == old(pushes) && (old(Amortized()) ==> Amortized())
    {
      hide Live, ZeroOutside;
      r := Back();
      if r.Panic? {
        return;
      }
      var back := front + size - 1;
      if back >= buf.Length {
        back := back - buf.Length;
      }
      ShrinkRight(buf[..], front, size, zero);
      buf[back] := zero;
      size := size - 1;
    }

    method At(idx: int) returns (r: Try<T>)
      requires Valid()
      ensures r == if 0 <= idx < |Contents()| then Done(Contents()[idx]) else Panic
    {
      if idx < 0 || idx >= size {
        return Panic;
      }
      var pos := front + idx;
      if pos >= buf.Length {
        pos := pos - buf.Length;
      }
      return Done(buf[pos]);
    }

    method Set(idx: int, val: T) returns (r: Try<()>)
      requires Valid()
      modifies buf
      ensures Valid() && (old(Amortized()) ==> Amortized())
      ensures r == if 0 <= idx < |old(Contents())| then Done(()) else Panic
      ensures Contents() == if 0 <= idx < |old(Contents())| then old(Contents())[idx := val] else old(Contents())
    {
      if idx < 0 || idx >= size {
        return Panic;
      }
      var pos := front + idx;
      if pos >= buf.Length {
        pos := pos - buf.Length;
      }
      Overwrite(buf[..], front, size, idx, val, zero);
      buf[pos] := val;
      return Done(());
    }

    /** The window in one piece: copy(dst, d.buf[front:front+size]). */
    method CopyStraight(dst: array<T>)
      requires Valid() && dst != buf && size <= dst.Length && front + size <= buf.Length
      modifies dst
      ensures dst[..size] == Contents() && dst[size..] == old(dst[size..])
    {
      LivePieces(buf[..], front, size);
      Copy(dst, 0, buf, front, size);
    }

    /** In two pieces: n := copy(dst, d.buf[front:]); copy(dst[n:], d.buf[:size-n]). */
    method CopyWrapped(dst: array<T>)
      requires Valid() && dst != buf && size <= dst.Length && front + size >= buf.Length
      modifies dst
      ensures dst[..size] == Contents() && dst[size..] == old(dst[size..])
    {
      LivePieces(buf[..], front, size);
      var n := buf.Length - front;
      ghost var head, tail := buf[front..], buf[..size - n];
      assert Contents() == head + tail;
      hide Live, ZeroOutside;
      Copy(dst, 0, buf, front, n);
      assert dst[..n] == head && buf[..size - n] == tail;
      Copy(dst, n, buf, 0, size - n);
      assert dst[..size] == dst[..n] + dst[n..size];
    }

    /** A copy of the contents, in the caller's array when that is large enough. */
    method ToSlice(into: Slice<T>) returns (out: Slice<T>)
      requires Valid() && into.arr != buf
      modifies into.arr
      ensures out.len == |Contents()| <= out.arr.Length
      ensures out.arr[..out.len] == Contents()
      ensures Contents() == old(Contents())
      ensures if into.arr.Length >= |Contents()| then out.arr == into.arr else fresh(out.arr)
    {
      if size == 0 {
        return Slice(into.arr, 0);
      }
      var dst := into.arr;
      if into.arr.Length < size {
        dst := new T[size](_ => zero);
      }
      var back := front + size;
      if back >= buf.Length {
        back := back - buf.Length;
      }
      if front < back {
        CopyStraight(dst);
      } else {
        CopyWrapped(dst);
      }
      out := Slice(dst, size);
    }

    method Reset()
      requires Valid()
      modifies this, buf
      ensures Valid() && Contents() == [] && buf == old(buf)
      ensures forall i :: 0 <= i < buf.Length ==> buf[i] == zero
      ensures pushes == old(pushes) && (old(Amortized()) ==> Amortized())
    {
      if size == 0 {
        return;
      }
      if front + size <= buf.Length {
        Clear(front, front + size);
      } else {
        Clear(front, buf.Length);
        Clear(0, front + size - buf.Length);
      }
      front := 0;
      size := 0;
    }

    /** Make room for n more elements; a negative n panics. */
    method Grow(n: int) returns (r: Try<()>)
      requires Valid()
      modifies this
      ensures Valid() && Contents() == old(Contents())
      ensures r == if n < 0 then Panic else Done(())
      ensures n >= 0 ==> buf.Length - size >= n
      ensures pushes == old(pushes) && (buf == old(buf) || fresh(buf))
    {
      if n < 0 {
        return Panic;
      }
      if buf.Length - size < n {
        Regrow(n);
      }
      return Done(());
    }

    /** grow: always reallocates, to twice the length or more. */
    method Regrow(need: nat)
      requires Valid() && buf.Length - size < need
      modifies this
      ensures Valid() && Contents() == old(Contents()) && fresh(buf)
      ensures size == old(size) && pushes == old(pushes)
      ensures buf.Length == if old(buf.Length) == 0 then Max(need, 16) else Max(2 * old(buf.Length), size + need)
      ensures buf.Length - size >= need
      ensures copied == old(copied) + size
    {
      if buf.Length == 0 {
        buf := new T[Max(need, 16)](_ => zero);
        return;
      }
      var newCap := Max(buf.Length * 2, size + need);
      var newBuf := new T[newCap](_ => zero);
      hide Live, ZeroOutside;
      ghost var live := Contents();
      if front + size <= buf.Length {
        CopyStraight(newBuf);
      } else {
        CopyWrapped(newBuf);
      }
      assert forall p :: size <= p < newCap ==> newBuf[p] == newBuf[size..][p - size] == zero;
      Straight(newBuf[..], live, zero);
      copied := copied + size;
      buf := newBuf;
      front := 0;
    }

    /** clear(d.buf[lo:hi]) */
    method Clear(lo: nat, hi: nat)
      requires lo <= hi <= buf.Length
      modifies buf
      ensures forall i :: 0 <= i < buf.Length ==> buf[i] == if lo <= i < hi then zero else old(buf[i])
    {
      for k := lo to hi
        invariant forall i :: 0 <= i < buf.Length ==> buf[i] == if lo <= i < k then zero else old(buf[i])
      {
        buf[k] := zero;
      }
    }
  }

  // ---- whole runs ----

  datatype Op<T> = PushBack(v: T) | PushFront(v: T) | PopFront | PopBack | Reset
                 | Front | Back | At(idx: int) | Set(idx: int, val: T) | ToSlice(capacity: nat) | Grow(n: int)

  /** What the caller gets: nothing, a value or a panic, a snapshot. */
  datatype Answer<T> = Nothing | Value(v: Try<T>) | Ended(done: Try<()>) | Snapshot(s: seq<T>)

  /** The operation on a mathematical sequence. */
  function Abstractly<T>(s: seq<T>, op: Op<T>): seq<T> {
    match op
    case PushBack(v) => s + [v]
    case PushFront(v) => [v] + s
    case PopFront => if s == [] then s else s[1..]
    case PopBack => if s == [] then s else s[..|s| - 1]
    case Reset => []
    case Set(idx, val) => if 0 <= idx < |s| then s[idx := val] else s
    case _ => s
  }

  function Answered<T>(s: seq<T>, op: Op<T>): Answer<T> {
    match op
    case PushBack(_) => Nothing
    case PushFront(_) => Nothing
    case Reset => Nothing
    case Front => Value(if s == [] then Panic else Done(s[0]))
    case PopFront => Value(if s == [] then Panic else Done(s[0]))
    case Back => Value(if s == [] then Panic else Done(s[|s| - 1]))
    case PopBack => Value(if s == [] then Panic else Done(s[|s| - 1]))
    case At(idx) => Value(if 0 <= idx < |s| then Done(s[idx]) else Panic)
    case Set(idx, _) => Ended(if 0 <= idx < |s| then Done(()) else Panic)
    case ToSlice(_) => Snapshot(s)
    case Grow(n) => Ended(if n < 0 then Panic else Done(()))
  }

  function AllAbstractly<T>(ops: seq<Op<T>>): seq<T> {
    if ops == [] then [] else Abstractly(AllAbstractly(ops[..|ops| - 1]), ops[|ops| - 1])
  }

  function AllAnswered<T>(ops: seq<Op<T>>): seq<Answer<T>> {
    if ops == [] then []
    else
      var before := ops[..|ops| - 1];
      AllAnswered(before) + [Answered(AllAbstractly(before), ops[|ops| - 1])]
  }

  function Pushes<T>(ops: seq<Op<T>>): nat {
    if ops == [] then 0
    else
      var last := ops[|ops| - 1];
      Pushes(ops[..|ops| - 1]) + (if last.PushBack? || last.PushFront? then 1 else 0)
  }

  /** Room is only ever made by pushes. */
  predicate NeverGrown<T>(ops: seq<Op<T>>) {
    forall i :: 0 <= i < |ops| ==> !ops[i].Grow?
  }

  /** Any run from the zero Deque answers as the mathematical sequence does and ends with its
      contents. Without calls of Grow, growth has copied fewer than two elements for each push, and
      the buffer is at most twice as long as there were pushes (or 16). */
  method RunFromZero<T>(zero: T, ops: seq<Op<T>>) returns (d: Deque<T>, answers: seq<Answer<T>>)
    ensures d.Valid() && d.Contents() == AllAbstractly(ops) && answers == AllAnswered(ops)
    ensures NeverGrown(ops) ==>
      (Pushes(ops) > 0 ==> d.copied < 2 * Pushes(ops)) && d.buf.Length <= Max(16, 2 * Pushes(ops))
  {
    d := new Deque(zero);
    answers := [];
    assert ops[..0] == [];
    for i := 0 to |ops|
      invariant d.Valid() && d.Contents() == AllAbstractly(ops[..i]) && answers == AllAnswered(ops[..i])
      invariant d.pushes == Pushes(ops[..i]) && (NeverGrown(ops[..i]) ==> d.Amortized())
      invariant fresh(d) && fresh(d.buf)
    {
      hide Live, Abstractly, Answered, InRing, ZeroOutside, Deque.Amortized;
      assert ops[..i + 1][..i] == ops[..i];
      assert NeverGrown(ops[..i + 1]) ==> NeverGrown(ops[..i]) && !ops[..i + 1][i].Grow?;
      var answer := DoOne(d, ops[i]);
      answers := answers + [answer];
    }
    assert ops[..|ops|] == ops;
  }

  method DoOne<T>(d: Deque<T>, op: Op<T>) returns (answer: Answer<T>)
    requires d.Valid()
    modifies d, d.buf
    ensures d.Valid() && d.Contents() == Abstractly(old(d.Contents()), op)
    ensures answer == Answered(old(d.Contents()), op)
    ensures !op.Grow? ==> (old(d.Amortized()) ==> d.Amortized())
    ensures d.pushes == old(d.pushes) + (if op.PushBack? || op.PushFront? then 1 else 0)
    ensures d.buf == old(d.buf) || fresh(d.buf)
  {
    answer := Nothing;
    match op
    case PushBack(v) => d.PushBack(v);
    case PushFront(v) => d.PushFront(v);
    case Reset => d.Reset();
    case _ => answer := AskOne(d, op);
  }

  /** The operations that answer. */
  method AskOne<T>(d: Deque<T>, op: Op<T>) returns (answer: Answer<T>)
    requires d.Valid() && !op.PushBack? && !op.PushFront? && !op.Reset?
    modifies d, d.buf
    ensures d.Valid() && d.Contents() == Abstractly(old(d.Contents()), op)
    ensures answer == Answered(old(d.Contents()), op)
    ensures !op.Grow? ==> (old(d.Amortized()) ==> d.Amortized())
    ensures d.pushes == old(d.pushes) && (d.buf == old(d.buf) || fresh(d.buf))
  {
    hide Live, InRing, ZeroOutside, Deque.Amortized;
    match op
    case PopFront =>
      var r := d.PopFront();
      answer := Value(r);
    case PopBack =>
      var r := d.PopBack();
      answer := Value(r);
    case Front =>
      var r := d.Front();
      answer := Value(r);
    case Back =>
      var r := d.Back();
      answer := Value(r);
    case At(idx) =>
      var r := d.At(idx);
      answer := Value(r);
    case Set(idx, val) =>
      var r := d.Set(idx, val);
      answer := Ended(r);
    case Grow(n) =>
      var r := d.Grow(n);
      answer := Ended(r);
    case ToSlice(capacity) =>
      var s := TakeSnapshot(d, capacity);
      answer := Snapshot(s);
  }

  /** ToSlice into an array of the given capacity. */
  method TakeSnapshot<T>(d: Deque<T>, capacity: nat) returns (s: seq<T>)
    requires d.Valid()
    ensures s == d.Contents()
  {
    hide Live, InRing, ZeroOutside;
    var into := new T[capacity](_ => d.zero);
    var out := d.ToSlice(Slice(into, 0));
    s := out.arr[..out.len];
  }
}
