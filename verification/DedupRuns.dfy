/**
 Whole timed runs of the deduplicating logger: producers, the command channel, ticks and close, on
 a monotone clock. Conservation of messages, and the spacing of lines with its exact bound.
 */
module DedupRuns {
  import opened Dedups

  datatype Cmd = LogCmd(msg: Message) | CloseCmd

  datatype Config = Config(window: int, queue: nat)

  /** `sent`: all commands that ever went into the channel; `processed`: those taken out; `dropped`:
      those given up. `ticks`: the clock readings of the ticks. */
  datatype State = State(now: int, entries: Entries, lines: seq<Line>, queue: seq<Cmd>,
                         sent: seq<Cmd>, processed: seq<Cmd>, dropped: seq<Cmd>, ticks: seq<int>, done: bool)

  function Init(now: int): State {
    State(now, map[], [], [], [], [], [], [], false)
  }

  /** Send: a send goes through. GiveUp: a send finds the logger done. Take: the next command is a
      message; `at` and `rememberAt` are the readings around its printing, if it is printed.
      Close: the next command is a close, which prints `out`. Tick: maybeFlush reads `at` and
      prints `out`. */
  datatype Event = Send(cmd: Cmd) | GiveUp(cmd: Cmd) | Take(at: int, rememberAt: int) | Close(out: seq<Line>)
                 | Tick(at: int, out: seq<Line>)

  predicate Room(c: Config, s: State) {
    if c.queue > 0 then |s.queue| < c.queue else s.queue == [] && !s.done
  }

  predicate Enabled(c: Config, s: State, e: Event) {
    match e
    case Send(_) => Room(c, s)
    case GiveUp(_) => s.done
    case Take(at, rememberAt) => !s.done && s.queue != [] && s.queue[0].LogCmd? && s.now <= at <= rememberAt
    case Close(out) => !s.done && s.queue != [] && s.queue[0].CloseCmd? && CloseLines(s.entries, s.now, out)
    case Tick(at, out) => !s.done && s.now <= at && TickLines(s.entries, at, out)
  }

  function After(from: int, out: seq<Line>): int {
    if out == [] then from else out[|out| - 1].at
  }

  function Apply(c: Config, s: State, e: Event): State
    requires Enabled(c, s, e)
  {
    match e
    case Send(cmd) => s.(queue := s.queue + [cmd], sent := s.sent + [cmd])
    case GiveUp(cmd) => s.(dropped := s.dropped + [cmd])
    case Take(at, rememberAt) =>
      var msg := s.queue[0].msg;
      var t := s.(queue := s.queue[1..], processed := s.processed + [s.queue[0]],
                  entries := Logged(s.entries, msg, rememberAt, c.window));
      if msg in s.entries then t
      else t.(now := rememberAt, lines := s.lines + [Plain(msg, at, rememberAt)])
    case Close(out) =>
      s.(queue := s.queue[1..], processed := s.processed + [CloseCmd], done := true,
         entries := map[], lines := s.lines + out, now := After(s.now, out))
    case Tick(at, out) =>
      s.(entries := Ticked(s.entries, at, c.window), lines := s.lines + out, ticks := s.ticks + [at], now := After(at, out))
  }

  predicate IsRun(c: Config, s: State, events: seq<Event>)
    decreases |events|
  {
    events == [] || (Enabled(c, s, events[0]) && IsRun(c, Apply(c, s, events[0]), events[1..]))
  }

  function Execute(c: Config, s: State, events: seq<Event>): State
    requires IsRun(c, s, events)
    decreases |events|
  {
    if events == [] then s else Execute(c, Apply(c, s, events[0]), events[1..])
  }

  // ---- conservation ----

  /** How often msg was received, in a list of commands. */
  function Received(cmds: seq<Cmd>, msg: Message): nat {
    if cmds == [] then 0
    else Received(cmds[..|cmds| - 1], msg) + (if cmds[|cmds| - 1] == LogCmd(msg) then 1 else 0)
  }

  /** How many copies of msg a line accounts for. */
  function Copies(line: Line, msg: Message): nat {
    if line.msg != msg then 0 else if line.Plain? then 1 else line.n
  }

  function Reported(lines: seq<Line>, msg: Message): nat {
    if lines == [] then 0 else Reported(lines[..|lines| - 1], msg) + Copies(lines[|lines| - 1], msg)
  }

  function Suppressed(entries: Entries, msg: Message): nat {
    if msg in entries then entries[msg].suppressed else 0
  }

  lemma ReceivedAppend(cmds: seq<Cmd>, cmd: Cmd, msg: Message)
    ensures Received(cmds + [cmd], msg) == Received(cmds, msg) + (if cmd == LogCmd(msg) then 1 else 0)
  {
    assert (cmds + [cmd])[..|cmds|] == cmds;
  }

  lemma {:induction false} ReportedConcat(a: seq<Line>, b: seq<Line>, msg: Message)
    ensures Reported(a + b, msg) == Reported(a, msg) + Reported(b, msg)
  {
    if b == [] {
      assert a + b == a;
    } else {
      ReportedConcat(a, b[..|b| - 1], msg);
      assert (a + b)[..|a + b| - 1] == a + b[..|b| - 1];
    }
  }

  /** Lines that print each pair of a set once account for a message by its pair in the set. */
  lemma {:induction false} ReportedPairs(lines: seq<Line>, pairs: set<(Message, nat)>, msg: Message, n: nat)
    requires Texts(lines) == multiset(pairs)
    requires forall i :: 0 <= i < |lines| ==> !lines[i].Plain?
    requires forall pair :: pair in pairs && pair.0 == msg ==> pair.1 == n
    ensures Reported(lines, msg) == if (msg, n) in pairs then n else 0
  {
    if lines == [] {
      assert forall pair :: pair in pairs ==> pair in multiset(pairs);
    } else {
      var last := lines[|lines| - 1];
      var pair := (last.msg, last.n);
      assert pair in Texts(lines);
      assert Texts(lines[..|lines| - 1]) == multiset(pairs) - multiset{pair} == multiset(pairs - {pair});
      ReportedPairs(lines[..|lines| - 1], pairs - {pair}, msg, n);
    }
  }

  /** Every copy of msg taken from the channel has been reported or is a suppressed one. */
  ghost predicate Conserved(s: State) {
    forall msg :: Received(s.processed, msg) == Reported(s.lines, msg) + Suppressed(s.entries, msg)
  }

  lemma TickReports(c: Config, s: State, at: int, out: seq<Line>, msg: Message)
    requires TickLines(s.entries, at, out)
    ensures Reported(out, msg) + Suppressed(Ticked(s.entries, at, c.window), msg) == Suppressed(s.entries, msg)
  {
    var n := Suppressed(s.entries, msg);
    ReportedPairs(out, TickReport(s.entries, at), msg, n);
  }

  lemma CloseReports(s: State, out: seq<Line>, msg: Message)
    requires CloseLines(s.entries, s.now, out)
    ensures Reported(out, msg) == Suppressed(s.entries, msg)
  {
    var n := Suppressed(s.entries, msg);
    ReportedPairs(out, Remaining(s.entries), msg, n);
  }

  lemma TakeConserves(c: Config, s: State, at: int, rememberAt: int, msg: Message)
    requires Enabled(c, s, Take(at, rememberAt))
    requires Received(s.processed, msg) == Reported(s.lines, msg) + Suppressed(s.entries, msg)
    ensures var t := Apply(c, s, Take(at, rememberAt));
      Received(t.processed, msg) == Reported(t.lines, msg) + Suppressed(t.entries, msg)
  {
    var line := Plain(s.queue[0].msg, at, rememberAt);
    ReportedAppend(s.lines, line, msg);
    ReceivedAppend(s.processed, s.queue[0], msg);
    LoggedSuppresses(s.entries, s.queue[0].msg, rememberAt, c.window, msg);
    hide Received, Reported, Logged, Suppressed;
  }

  lemma ReportedAppend(lines: seq<Line>, line: Line, msg: Message)
    ensures Reported(lines + [line], msg) == Reported(lines, msg) + Copies(line, msg)
  {
    assert (lines + [line])[..|lines|] == lines;
  }

  lemma LoggedSuppresses(entries: Entries, received: Message, rememberAt: int, window: int, msg: Message)
    ensures Suppressed(Logged(entries, received, rememberAt, window), msg)
            == Suppressed(entries, msg) + (if received in entries && received == msg then 1 else 0)
  {
  }

  lemma ConservedKept(c: Config, s: State, e: Event)
    requires Conserved(s) && Enabled(c, s, e)
    ensures Conserved(Apply(c, s, e))
  {
    var t := Apply(c, s, e);
    forall msg ensures Received(t.processed, msg) == Reported(t.lines, msg) + Suppressed(t.entries, msg) {
      assert Received(s.processed, msg) == Reported(s.lines, msg) + Suppressed(s.entries, msg);
      hide Received, Reported, Texts, Ticked;
      match e
      case Take(at, rememberAt) => TakeConserves(c, s, at, rememberAt, msg);
      case Close(out) =>
        ReceivedAppend(s.processed, CloseCmd, msg);
        ReportedConcat(s.lines, out, msg);
        CloseReports(s, out, msg);
      case Tick(at, out) =>
        ReportedConcat(s.lines, out, msg);
        TickReports(c, s, at, out, msg);
      case _ =>
    }
  }

  // ---- the channel ----

  /** Commands are taken in the order in which they were sent; the close is the last one taken. */
  predicate Fifo(s: State) {
    && s.sent == s.processed + s.queue
    && (forall i :: 0 <= i < |s.processed| ==> (s.processed[i].CloseCmd? <==> s.done && i == |s.processed| - 1))
    && (s.done ==> s.processed != [] && s.entries == map[])
    && (s.dropped != [] ==> s.done)
  }

  lemma FifoKept(c: Config, s: State, e: Event)
    requires Fifo(s) && Enabled(c, s, e)
    ensures Fifo(Apply(c, s, e))
  {
  }

  // ---- spacing ----

  /** A line that opens a window, and the window it opens. */
  predicate Opens(line: Line) {
    !line.Closing?
  }

  /** A line's window is over, or its message is remembered until then at least. */
  predicate Guarded(c: Config, s: State, line: Line) {
    Opens(line) ==>
      && line.since <= s.now
      && (line.Plain? ==> line.at <= line.since)
      && (line.More? ==> line.since <= line.at)
      && (!s.done ==> line.since + c.window <= (if line.msg in s.entries then s.entries[line.msg].flushAt else s.now))
  }

  predicate Spaced(c: Config, s: State) {
    && (forall i :: 0 <= i < |s.lines| ==> Guarded(c, s, s.lines[i]))
    && forall i, j :: 0 <= i < j < |s.lines| && s.lines[i].msg == s.lines[j].msg && Opens(s.lines[i]) && Opens(s.lines[j]) ==>
         s.lines[i].since + c.window <= s.lines[j].at
  }

  lemma TextsMembers(lines: seq<Line>, i: nat)
    requires i < |lines| && !lines[i].Plain?
    ensures (lines[i].msg, lines[i].n) in Texts(lines)
  {
  }

  /** The lines of a tick are of messages that are due, each of them once. */
  lemma TickLinesAreDue(entries: Entries, at: int, out: seq<Line>)
    requires TickLines(entries, at, out)
    ensures forall i :: 0 <= i < |out| ==> Due(entries, out[i].msg, at) && entries[out[i].msg].suppressed > 0
    ensures forall i, j :: 0 <= i < j < |out| ==> out[i].msg != out[j].msg
  {
    forall i | 0 <= i < |out| ensures Due(entries, out[i].msg, at) && entries[out[i].msg].suppressed > 0 {
      TextsMembers(out, i);
      assert (out[i].msg, out[i].n) in TickReport(entries, at);
    }
    forall i, j | 0 <= i < j < |out| ensures out[i].msg != out[j].msg {
      if out[i].msg == out[j].msg {
        TextsMembers(out, i);
        TextsMembers(out, j);
        assert (out[i].msg, out[i].n) in TickReport(entries, at);
        assert (out[j].msg, out[j].n) in TickReport(entries, at);
        TwiceInTexts(out, i, j);
        assert false;
      }
    }
  }

  lemma {:induction false} TwiceInTexts(lines: seq<Line>, i: nat, j: nat)
    requires i < j < |lines| && !lines[i].Plain? && !lines[j].Plain?
    requires lines[i].msg == lines[j].msg && lines[i].n == lines[j].n
    ensures Texts(lines)[(lines[i].msg, lines[i].n)] >= 2
  {
    if j == |lines| - 1 {
      TextsMembers(lines[..j], i);
    } else {
      TwiceInTexts(lines[..|lines| - 1], i, j);
    }
  }

  lemma TickKeepsSpaced(c: Config, s: State, at: int, out: seq<Line>)
    requires c.window > 0 && Spaced(c, s) && Enabled(c, s, Tick(at, out))
    ensures Spaced(c, Apply(c, s, Tick(at, out)))
  {
    var t := Apply(c, s, Tick(at, out));
    TickLinesAreDue(s.entries, at, out);
    assert at <= t.now;
    forall i | 0 <= i < |t.lines| ensures Guarded(c, t, t.lines[i]) {
      assert i < |s.lines| ==> Guarded(c, s, s.lines[i]);
      assert i >= |s.lines| ==> t.lines[i] == out[i - |s.lines|];
    }
    forall i, j | 0 <= i < j < |t.lines| && t.lines[i].msg == t.lines[j].msg && Opens(t.lines[i]) && Opens(t.lines[j])
      ensures t.lines[i].since + c.window <= t.lines[j].at
    {
      if j >= |s.lines| {
        assert t.lines[j] == out[j - |s.lines|] && Due(s.entries, t.lines[j].msg, at);
        assert i < |s.lines| && Guarded(c, s, s.lines[i]);
      }
    }
  }

  lemma SpacedKept(c: Config, s: State, e: Event)
    requires c.window > 0 && Fifo(s) && Spaced(c, s) && Enabled(c, s, e)
    ensures Spaced(c, Apply(c, s, e))
  {
    var t := Apply(c, s, e);
    match e
    case Tick(at, out) => TickKeepsSpaced(c, s, at, out);
    case _ =>
      forall i | 0 <= i < |t.lines| ensures Guarded(c, t, t.lines[i]) {
        assert i < |s.lines| ==> Guarded(c, s, s.lines[i]);
      }
  }

  // ---- what is remembered ----

  /** A tick has come at the end of the line's window, or after it. */
  predicate Expired(c: Config, line: Line, ticks: seq<int>)
    requires Opens(line)
  {
    exists k :: 0 <= k < |ticks| && line.since + c.window <= ticks[k]
  }

  /** A line for msg whose window no tick has ended. */
  predicate Running(c: Config, s: State, msg: Message, i: nat) {
    i < |s.lines| && Opens(s.lines[i]) && s.lines[i].msg == msg && !Expired(c, s.lines[i], s.ticks)
  }

  /** Entry msg is that of line i. */
  predicate Stands(c: Config, s: State, msg: Message, i: nat) {
    && i < |s.lines| && Opens(s.lines[i]) && s.lines[i].msg == msg
    && msg in s.entries && s.entries[msg].flushAt == s.lines[i].since + c.window
  }

  /** While the logger runs, a message is remembered exactly as long as the window of one of its lines
      is running. */
  ghost predicate Remembered(c: Config, s: State) {
    TicksPast(s) && (!s.done ==> AllStand(c, s) && AllKnown(c, s))
  }

  predicate TicksPast(s: State) {
    forall k :: 0 <= k < |s.ticks| ==> s.ticks[k] <= s.now
  }

  ghost predicate AllStand(c: Config, s: State) {
    forall msg :: msg in s.entries ==>
      (exists i: nat :: Stands(c, s, msg, i)) && forall k :: 0 <= k < |s.ticks| ==> s.ticks[k] < s.entries[msg].flushAt
  }

  ghost predicate AllKnown(c: Config, s: State) {
    forall msg, i: nat :: Running(c, s, msg, i) ==> msg in s.entries
  }

  lemma {:induction false} PairIsPrinted(lines: seq<Line>, msg: Message, n: nat)
    requires (msg, n) in Texts(lines)
    ensures exists i: nat :: i < |lines| && !lines[i].Plain? && lines[i].msg == msg && lines[i].n == n
  {
    var last := |lines| - 1;
    if !(!lines[last].Plain? && lines[last].msg == msg && lines[last].n == n) {
      PairIsPrinted(lines[..last], msg, n);
      var i: nat :| i < last && !lines[..last][i].Plain? && lines[..last][i].msg == msg && lines[..last][i].n == n;
      assert lines[..last][i] == lines[i];
    }
  }

  lemma TakeKeepsRemembered(c: Config, s: State, at: int, rememberAt: int)
    requires c.window > 0 && Remembered(c, s) && Enabled(c, s, Take(at, rememberAt))
    ensures Remembered(c, Apply(c, s, Take(at, rememberAt)))
  {
    var msg, t := s.queue[0].msg, Apply(c, s, Take(at, rememberAt));
    forall m | m in t.entries
      ensures exists i: nat :: Stands(c, t, m, i)
      ensures forall k :: 0 <= k < |t.ticks| ==> t.ticks[k] < t.entries[m].flushAt
    {
      if m in s.entries {
        var i: nat :| Stands(c, s, m, i);
        assert t.lines[i] == s.lines[i] && Stands(c, t, m, i);
      } else {
        assert t.lines[|s.lines|] == Plain(msg, at, rememberAt) && Stands(c, t, m, |s.lines|);
      }
    }
    forall m, i: nat | Running(c, t, m, i) ensures m in t.entries {
      assert i < |s.lines| ==> Running(c, s, m, i);
    }
  }

  lemma TickKeepsStanding(c: Config, s: State, at: int, out: seq<Line>, msg: Message)
    requires c.window > 0 && Remembered(c, s) && Enabled(c, s, Tick(at, out))
    requires msg in Ticked(s.entries, at, c.window)
    ensures var t := Apply(c, s, Tick(at, out));
      (exists i: nat :: Stands(c, t, msg, i)) && forall k :: 0 <= k < |t.ticks| ==> t.ticks[k] < t.entries[msg].flushAt
  {
    var t, n := Apply(c, s, Tick(at, out)), s.entries[msg].suppressed;
    TickKeeps(s.entries, at, c.window, msg);
    if s.entries[msg].flushAt > at {
      var i: nat :| Stands(c, s, msg, i);
      assert t.lines[i] == s.lines[i] && Stands(c, t, msg, i);
    } else {
      assert (msg, n) in multiset(TickReport(s.entries, at));
      PairIsPrinted(out, msg, n);
      var i: nat :| i < |out| && !out[i].Plain? && out[i].msg == msg && out[i].n == n;
      assert t.lines[|s.lines| + i] == out[i] && Stands(c, t, msg, |s.lines| + i);
    }
  }

  lemma TickKeepsRunning(c: Config, s: State, at: int, out: seq<Line>, msg: Message, i: nat)
    requires c.window > 0 && Remembered(c, s) && Spaced(c, s) && Enabled(c, s, Tick(at, out))
    requires Running(c, Apply(c, s, Tick(at, out)), msg, i)
    ensures msg in Ticked(s.entries, at, c.window)
  {
    var t := Apply(c, s, Tick(at, out));
    assert t.ticks[|s.ticks|] == at && at < t.lines[i].since + c.window;
    if i < |s.lines| {
      forall k | 0 <= k < |s.ticks| ensures s.lines[i].since + c.window > s.ticks[k] {
        assert t.ticks[k] == s.ticks[k];
      }
      assert Running(c, s, msg, i) && Guarded(c, s, s.lines[i]);
      TickKeeps(s.entries, at, c.window, msg);
    } else {
      TickLinesAreDue(s.entries, at, out);
      assert t.lines[i] == out[i - |s.lines|];
      TickKeeps(s.entries, at, c.window, msg);
    }
  }

  lemma TickKeepsRemembered(c: Config, s: State, at: int, out: seq<Line>)
    requires c.window > 0 && Remembered(c, s) && Spaced(c, s) && Enabled(c, s, Tick(at, out))
    ensures Remembered(c, Apply(c, s, Tick(at, out)))
  {
    var t := Apply(c, s, Tick(at, out));
    assert s.now <= at <= t.now && t.ticks == s.ticks + [at];
    hide Remembered, Ticked, TickLines, Spaced, Stands, Running;
    assert TicksPast(t) by { RememberedPast(c, s); }
    assert AllStand(c, t) by {
      forall msg | msg in t.entries
        ensures exists i: nat :: Stands(c, t, msg, i)
        ensures forall k :: 0 <= k < |t.ticks| ==> t.ticks[k] < t.entries[msg].flushAt
      {
        TickKeepsStanding(c, s, at, out, msg);
      }
    }
    assert AllKnown(c, t) by {
      forall msg, i: nat | Running(c, t, msg, i) ensures msg in t.entries {
        TickKeepsRunning(c, s, at, out, msg, i);
      }
    }
    MakesRemembered(c, t);
  }

  lemma RememberedPast(c: Config, s: State)
    requires Remembered(c, s)
    ensures TicksPast(s)
  {
  }

  lemma MakesRemembered(c: Config, s: State)
    requires TicksPast(s) && AllStand(c, s) && AllKnown(c, s)
    ensures Remembered(c, s)
  {
  }

  lemma RememberedKept(c: Config, s: State, e: Event)
    requires c.window > 0 && Remembered(c, s) && Spaced(c, s) && Enabled(c, s, e)
    ensures Remembered(c, Apply(c, s, e))
  {
    match e
    case Take(at, rememberAt) => TakeKeepsRemembered(c, s, at, rememberAt);
    case Tick(at, out) => TickKeepsRemembered(c, s, at, out);
    case Close(out) => assert s.now <= After(s.now, out);
    case Send(cmd) => SameRemembered(c, s, Apply(c, s, e));
    case GiveUp(cmd) => SameRemembered(c, s, Apply(c, s, e));
  }

  lemma SameRemembered(c: Config, s: State, t: State)
    requires Remembered(c, s)
    requires t.now == s.now && t.entries == s.entries && t.lines == s.lines && t.ticks == s.ticks && t.done == s.done
    ensures Remembered(c, t)
  {
    forall msg, i: nat ensures Stands(c, t, msg, i) == Stands(c, s, msg, i) && Running(c, t, msg, i) == Running(c, s, msg, i) {
    }
  }

  // ---- main results ----

  ghost predicate Inv(c: Config, s: State) {
    Fifo(s) && Conserved(s) && Spaced(c, s) && Remembered(c, s)
  }

  lemma {:induction false} RunKeepsInv(c: Config, s: State, events: seq<Event>)
    requires c.window > 0 && Inv(c, s) && IsRun(c, s, events)
    ensures Inv(c, Execute(c, s, events))
    decreases |events|
  {
    if events != [] {
      FifoKept(c, s, events[0]);
      ConservedKept(c, s, events[0]);
      SpacedKept(c, s, events[0]);
      RememberedKept(c, s, events[0]);
      RunKeepsInv(c, Apply(c, s, events[0]), events[1..]);
    }
  }

  /** Conservation: at any time the copies of a message that were taken from the channel are its
      plain lines, the copies counted in its "(+n more)" lines, and the suppressed ones. */
  lemma NothingUnreported(c: Config, now: int, events: seq<Event>, msg: Message)
    requires c.window > 0 && IsRun(c, Init(now), events)
    ensures var s := Execute(c, Init(now), events);
      Received(s.processed, msg) == Reported(s.lines, msg) + Suppressed(s.entries, msg)
  {
    RunKeepsInv(c, Init(now), events);
  }

  /** When a message is printed: one taken from the channel gets a plain line if and only if every
      window that a line of it opened has been ended by a tick; otherwise it is only counted. So a
      message that stayed quiet up to a tick after its window is printed at its next coming. */
  lemma PrintedIffExpired(c: Config, now: int, events: seq<Event>, at: int, rememberAt: int)
    requires c.window > 0 && IsRun(c, Init(now), events)
    requires Enabled(c, Execute(c, Init(now), events), Take(at, rememberAt))
    ensures var s := Execute(c, Init(now), events);
      var msg := s.queue[0].msg;
      Apply(c, s, Take(at, rememberAt)).lines ==
        if forall i :: 0 <= i < |s.lines| && Opens(s.lines[i]) && s.lines[i].msg == msg ==> Expired(c, s.lines[i], s.ticks)
        then s.lines + [Plain(msg, at, rememberAt)]
        else s.lines
  {
    RunKeepsInv(c, Init(now), events);
    hide IsRun, Execute, Init, Fifo, Conserved, Spaced, Remembered;
    var s := Execute(c, Init(now), events);
    ExpiredMeansForgotten(c, s, s.queue[0].msg);
  }

  lemma ExpiredMeansForgotten(c: Config, s: State, msg: Message)
    requires c.window > 0 && Remembered(c, s) && !s.done
    ensures msg !in s.entries <==>
      forall i :: 0 <= i < |s.lines| && Opens(s.lines[i]) && s.lines[i].msg == msg ==> Expired(c, s.lines[i], s.ticks)
  {
    if msg in s.entries {
      var i: nat :| Stands(c, s, msg, i);
      assert !Expired(c, s.lines[i], s.ticks);
    } else {
      forall i: nat | i < |s.lines| && Opens(s.lines[i]) && s.lines[i].msg == msg ensures Expired(c, s.lines[i], s.ticks) {
        assert !Running(c, s, msg, i);
      }
    }
  }

  /** Nothing is dropped before the logger is done. */
  lemma DroppedOnlyAfterClose(c: Config, now: int, events: seq<Event>)
    requires c.window > 0 && IsRun(c, Init(now), events) && !Execute(c, Init(now), events).done
    ensures Execute(c, Init(now), events).dropped == []
  {
    RunKeepsInv(c, Init(now), events);
    hide IsRun, Execute, Init, Conserved, Spaced, Remembered;
  }

  /** What was sent before the first close command. */
  function BeforeClose(sent: seq<Cmd>): seq<Cmd> {
    if sent == [] || sent[0].CloseCmd? then [] else [sent[0]] + BeforeClose(sent[1..])
  }

  /** When Close returns, every message sent before the first close command is fully accounted for
      by lines, with no suppressed remainder; what was sent after it is not printed at all. */
  lemma CloseAccountsForAll(c: Config, now: int, events: seq<Event>, msg: Message)
    requires c.window > 0 && IsRun(c, Init(now), events)
    requires Execute(c, Init(now), events).done
    ensures var s := Execute(c, Init(now), events);
      s.entries == map[] && Reported(s.lines, msg) == Received(BeforeClose(s.sent), msg)
  {
    RunKeepsInv(c, Init(now), events);
    var s := Execute(c, Init(now), events);
    var messages := s.processed[..|s.processed| - 1];
    assert s.processed == messages + [CloseCmd];
    ReceivedAppend(messages, CloseCmd, msg);
    assert s.sent == messages + ([CloseCmd] + s.queue);
    CutAtClose(messages, [CloseCmd] + s.queue);
  }

  lemma {:induction false} CutAtClose(messages: seq<Cmd>, rest: seq<Cmd>)
    requires forall i :: 0 <= i < |messages| ==> messages[i].LogCmd?
    requires rest != [] && rest[0].CloseCmd?
    ensures BeforeClose(messages + rest) == messages
  {
    if messages == [] {
      assert messages + rest == rest;
    } else {
      CutAtClose(messages[1..], rest);
      assert (messages + rest)[1..] == messages[1..] + rest;
    }
  }

  /** By how much the printing of a line came after the reading its window counts from; a plain
      line's window counts from after its printing. */
  function Lag(line: Line): int
    requires Opens(line)
  {
    line.at - line.since
  }

  /** Spacing: any two lines for the same message, other than closing ones, are printed a window
      apart less the lag of the first; so a full window apart when the first is a plain line, or
      was printed at the very reading of its tick. */
  lemma LinesAreSpaced(c: Config, now: int, events: seq<Event>, i: nat, j: nat)
    requires c.window > 0 && IsRun(c, Init(now), events)
    requires i < j < |Execute(c, Init(now), events).lines|
    requires var s := Execute(c, Init(now), events);
      s.lines[i].msg == s.lines[j].msg && Opens(s.lines[i]) && Opens(s.lines[j])
    ensures var s := Execute(c, Init(now), events);
      && s.lines[j].at - s.lines[i].at >= c.window - Lag(s.lines[i])
      && (s.lines[i].Plain? ==> Lag(s.lines[i]) <= 0)
  {
    RunKeepsInv(c, Init(now), events);
    var s := Execute(c, Init(now), events);
    assert Guarded(c, s, s.lines[i]);
  }

  /** The bound is exact: for every window and every lag from 0 to the window there is a run with
      two consecutive "(+n more)" lines of one message just window - lag apart. */
  lemma SpacingIsTight(c: Config, lag: int) returns (events: seq<Event>)
    requires c.window > 0 && 0 <= lag <= c.window
    ensures IsRun(c, Init(0), events)
    ensures Execute(c, Init(0), events).lines == LaggingLines(c.window, lag)
  {
    var window := c.window;
    var start := Apply(c, Apply(c, Init(0), Send(LogCmd("m"))), Take(0, 0));
    assert start.entries == map["m" := Meta(window, 0)];
    var first, s1 := Round(c, start, window, window + lag);
    var second, s2 := Round(c, s1, 2 * window, 2 * window);
    Chain(c, start, first, second);
    TwoSteps(c, Init(0), Send(LogCmd("m")), Take(0, 0), first + second);
    events := [Send(LogCmd("m")), Take(0, 0)] + (first + second);
  }

  /** Three copies of a message; the second line comes `lag` after the reading of its tick. */
  function LaggingLines(window: int, lag: int): seq<Line> {
    [Plain("m", 0, 0), More("m", 1, window + lag, window), More("m", 1, 2 * window, 2 * window)]
  }

  predicate LagsAtMost(lines: seq<Line>, bound: int) {
    forall i :: 0 <= i < |lines| && Opens(lines[i]) ==> Lag(lines[i]) <= bound
  }

  predicate WindowApart(lines: seq<Line>, window: int) {
    forall i, j :: 0 <= i < j < |lines| && lines[i].msg == lines[j].msg && Opens(lines[i]) && Opens(lines[j]) ==>
      lines[j].at - lines[i].at >= window
  }

  /** A full window between any two lines of a message is guaranteed if and only if no line is
      printed any later than the clock reading its window counts from. */
  lemma FullSpacingNeedsNoLag(c: Config, bound: nat)
    requires c.window > 0
    ensures (forall now, events :: IsRun(c, Init(now), events) && LagsAtMost(Execute(c, Init(now), events).lines, bound) ==>
               WindowApart(Execute(c, Init(now), events).lines, c.window))
            <==> bound == 0
  {
    if bound > 0 {
      var lag := if bound <= c.window then bound else c.window;
      var events := SpacingIsTight(c, lag);
      var lines := Execute(c, Init(0), events).lines;
      assert LagsAtMost(lines, bound);
      assert lines[1].msg == lines[2].msg && Opens(lines[1]) && Opens(lines[2]);
      assert !WindowApart(lines, c.window);
    } else {
      forall now, events | IsRun(c, Init(now), events) && LagsAtMost(Execute(c, Init(now), events).lines, 0)
        ensures WindowApart(Execute(c, Init(now), events).lines, c.window)
      {
        var lines := Execute(c, Init(now), events).lines;
        forall i, j | 0 <= i < j < |lines| && lines[i].msg == lines[j].msg && Opens(lines[i]) && Opens(lines[j])
          ensures lines[j].at - lines[i].at >= c.window
        {
          LinesAreSpaced(c, now, events, i, j);
        }
      }
    }
  }

  /** A copy is suppressed, and reported by the tick that reads `at`, at time `printAt`. */
  lemma Round(c: Config, s: State, at: int, printAt: int) returns (events: seq<Event>, t: State)
    requires s.queue == [] && !s.done && s.now <= at <= printAt
    requires s.entries == map["m" := Meta(at, 0)]
    ensures IsRun(c, s, events) && Execute(c, s, events) == t
    ensures t.queue == [] && !t.done && t.now == printAt && t.entries == map["m" := Meta(at + c.window, 0)]
    ensures t.lines == s.lines + [More("m", 1, printAt, at)]
  {
    var send, take := Send(LogCmd("m")), Take(s.now, s.now);
    var s1 := Apply(c, Apply(c, s, send), take);
    assert s1.entries == map["m" := Meta(at, 1)];
    var out := [More("m", 1, printAt, at)];
    OneTickLine(s1.entries, 1, at, out);
    t := Apply(c, s1, Tick(at, out));
    assert t.entries == map["m" := Meta(at + c.window, 0)];
    assert [Tick(at, out)][1..] == [];
    TwoSteps(c, s, send, take, [Tick(at, out)]);
    events := [send, take] + [Tick(at, out)];
  }

  lemma {:induction false} Chain(c: Config, s: State, first: seq<Event>, second: seq<Event>)
    requires IsRun(c, s, first) && IsRun(c, Execute(c, s, first), second)
    ensures IsRun(c, s, first + second)
    ensures Execute(c, s, first + second) == Execute(c, Execute(c, s, first), second)
    decreases |first|
  {
    if first == [] {
      assert first + second == second;
    } else {
      Chain(c, Apply(c, s, first[0]), first[1..], second);
      assert (first + second)[1..] == first[1..] + second;
    }
  }

  lemma OneTickLine(entries: Entries, n: nat, at: int, out: seq<Line>)
    requires n > 0 && entries == map["m" := Meta(at, n)]
    requires |out| == 1 && out[0] == More("m", n, out[0].at, at) && at <= out[0].at
    ensures TickLines(entries, at, out)
  {
    var m := "m";
    assert m in entries && Due(entries, m, at) && entries[m].suppressed == n;
    assert (m, entries[m].suppressed) in TickReport(entries, at);
    assert TickReport(entries, at) == {(m, n)};
    assert out == [] + [out[0]];
    TextsAppend([], out[0]);
  }

  lemma OneStep(c: Config, s: State, e: Event, rest: seq<Event>)
    requires Enabled(c, s, e) && IsRun(c, Apply(c, s, e), rest)
    ensures IsRun(c, s, [e] + rest) && Execute(c, s, [e] + rest) == Execute(c, Apply(c, s, e), rest)
  {
    assert ([e] + rest)[1..] == rest;
  }

  lemma TwoSteps(c: Config, s: State, d: Event, e: Event, rest: seq<Event>)
    requires Enabled(c, s, d) && Enabled(c, Apply(c, s, d), e) && IsRun(c, Apply(c, Apply(c, s, d), e), rest)
    ensures IsRun(c, s, [d, e] + rest)
    ensures Execute(c, s, [d, e] + rest) == Execute(c, Apply(c, Apply(c, s, d), e), rest)
  {
    OneStep(c, Apply(c, s, d), e, rest);
    OneStep(c, s, d, [e] + rest);
    assert [d, e] + rest == [d] + ([e] + rest);
  }

  /** Right after a tick every remembered entry has its flush time ahead. */
  lemma TickLeavesNothingDue(entries: Entries, now: int, window: int, msg: Message)
    requires window > 0 && msg in Ticked(entries, now, window)
    ensures Ticked(entries, now, window)[msg].flushAt > now
  {
  }
}
