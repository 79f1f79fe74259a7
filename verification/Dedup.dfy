/**
 The deduplicating logger: per message a suppression window, flushed on ticks and on close. What
 one command or tick does is stated on values, and met by class Dedup; whole timed runs are module
 DedupRuns.
 */
module Dedups {

  type Message = string

  datatype Meta = Meta(flushAt: int, suppressed: nat)

  /** A line of output with the clock reading `at` of its printing. `since` is the reading from
      which the next window counts: taken after the printing of a plain line, but before that of
      a "(+n more)" line. Closing lines open no window. */
  datatype Line = Plain(msg: Message, at: int, since: int)
                | More(msg: Message, n: nat, at: int, since: int)
                | Closing(msg: Message, n: nat, at: int)

  type Entries = map<Message, Meta>

  // ---- log ----

  function Logged(entries: Entries, msg: Message, rememberAt: int, window: int): Entries {
    if msg in entries then entries[msg := entries[msg].(suppressed := entries[msg].suppressed + 1)]
    else entries[msg := Meta(rememberAt + window, 0)]
  }

  // ---- maybeFlush ----

  predicate Due(entries: Entries, msg: Message, now: int) {
    msg in entries && now - entries[msg].flushAt >= 0
  }

  /** The whole pass over the map as one pointwise update. */
  function Ticked(entries: Entries, now: int, window: int): (after: Entries)
    ensures after.Keys <= entries.Keys
  {
    map msg | msg in entries && !(Due(entries, msg, now) && entries[msg].suppressed == 0) ::
      if Due(entries, msg, now) then Meta(now + window, 0) else entries[msg]
  }

  /** The messages a tick reports, with their counts. */
  function TickReport(entries: Entries, now: int): set<(Message, nat)> {
    set msg | msg in entries && Due(entries, msg, now) && entries[msg].suppressed > 0 :: (msg, entries[msg].suppressed)
  }

  /** What a tick keeps: an entry that was due and had nothing suppressed is forgotten; one that had,
      and is reported, starts another window; all others stay as they were. */
  lemma TickKeeps(entries: Entries, now: int, window: int, msg: Message)
    requires msg in entries
    ensures msg !in Ticked(entries, now, window) <==> entries[msg].flushAt <= now && entries[msg].suppressed == 0
    ensures entries[msg].flushAt > now ==>
      msg in Ticked(entries, now, window) && Ticked(entries, now, window)[msg] == entries[msg]
    ensures entries[msg].flushAt <= now && entries[msg].suppressed > 0 ==>
      && (msg, entries[msg].suppressed) in TickReport(entries, now)
      && msg in Ticked(entries, now, window) && Ticked(entries, now, window)[msg] == Meta(now + window, 0)
  {
    assert Due(entries, msg, now) <==> entries[msg].flushAt <= now;
  }

  /** The messages a close reports. */
  function Remaining(entries: Entries): set<(Message, nat)> {
    set msg | msg in entries && entries[msg].suppressed > 0 :: (msg, entries[msg].suppressed)
  }

  function Texts(lines: seq<Line>): multiset<(Message, nat)> {
    if lines == [] then multiset{}
    else
      var last := lines[|lines| - 1];
      Texts(lines[..|lines| - 1]) + (if last.Plain? then multiset{} else multiset{(last.msg, last.n)})
  }

  lemma TextsAppend(lines: seq<Line>, line: Line)
    ensures Texts(lines + [line]) == Texts(lines) + (if line.Plain? then multiset{} else multiset{(line.msg, line.n)})
  {
    assert (lines + [line])[..|lines|] == lines;
  }

  /** Lines printed one after the other, from clock reading `from` on. */
  predicate InTime(lines: seq<Line>, from: int) {
    && (forall i :: 0 <= i < |lines| ==> from <= lines[i].at)
    && forall i, j :: 0 <= i < j < |lines| ==> lines[i].at <= lines[j].at
  }

  /** What a tick that read `now` may print: in any order, but each due message with suppressed
      copies exactly once. */
  predicate TickLines(entries: Entries, now: int, lines: seq<Line>) {
    && (forall i :: 0 <= i < |lines| ==> lines[i].More? && lines[i].since == now)
    && InTime(lines, now)
    && Texts(lines) == multiset(TickReport(entries, now))
  }

  predicate CloseLines(entries: Entries, from: int, lines: seq<Line>) {
    && (forall i :: 0 <= i < |lines| ==> lines[i].Closing?)
    && InTime(lines, from)
    && Texts(lines) == multiset(Remaining(entries))
  }

  // ---- the logger itself ----

  /** A monotone clock. */
  class Clock {
    var reading: int

    method Now() returns (now: int)
      modifies this
      ensures now == reading >= old(reading)
    {
      var elapsed :| elapsed >= 0;
      reading := reading + elapsed;
      now := reading;
    }
  }

  class Dedup {
    const window: int
    const clock: Clock
    var lastMsgs: Entries
    var output: seq<Line>

    constructor (clock: Clock, window: int)
      ensures this.clock == clock && this.window == window && lastMsgs == map[] && output == []
    {
      this.clock := clock;
      this.window := window;
      lastMsgs, output := map[], [];
    }

    /** log: a message already remembered is only counted, another is printed and remembered. */
    method Log(msg: Message)
      modifies this, clock
      ensures clock.reading >= old(clock.reading)
      ensures lastMsgs == Logged(old(lastMsgs), msg, clock.reading, window)
      ensures msg in old(lastMsgs) ==> output == old(output)
      ensures msg !in old(lastMsgs) ==>
        exists at :: old(clock.reading) <= at <= clock.reading && output == old(output) + [Plain(msg, at, clock.reading)]
    {
      if msg in lastMsgs {
        var meta := lastMsgs[msg];
        lastMsgs := lastMsgs[msg := meta.(suppressed := meta.suppressed + 1)];
        return;
      }
      var at := clock.Now();
      var now := clock.Now();
      output := output + [Plain(msg, at, now)];
      Remember(now, msg);
    }

    method Remember(at: int, msg: Message)
      modifies this`lastMsgs
      ensures lastMsgs == old(lastMsgs)[msg := Meta(at + window, 0)]
    {
      var flushAt := at + window;
      lastMsgs := lastMsgs[msg := Meta(flushAt, 0)];
    }

    method PrintMore(msg: Message, n: nat, since: int) returns (line: Line)
      modifies this`output, clock
      ensures clock.reading >= old(clock.reading)
      ensures line == More(msg, n, clock.reading, since) && output == old(output) + [line]
    {
      var at := clock.Now();
      line := More(msg, n, at, since);
      output := output + [line];
    }

    /** The body of the loop of maybeFlush. */
    method Visit(msg: Message, now: int) returns (ghost lines: seq<Line>)
      requires msg in lastMsgs
      modifies this`lastMsgs, this`output, clock
      ensures clock.reading >= old(clock.reading) && output == old(output) + lines
      ensures forall m :: m != msg ==>
        (m in lastMsgs <==> m in old(lastMsgs)) && (m in lastMsgs ==> lastMsgs[m] == old(lastMsgs)[m])
      ensures msg in lastMsgs <==> msg in Ticked(old(lastMsgs), now, window)
      ensures msg in lastMsgs ==> lastMsgs[msg] == Ticked(old(lastMsgs), now, window)[msg]
      ensures lines == if Due(old(lastMsgs), msg, now) && old(lastMsgs)[msg].suppressed > 0
        then [More(msg, old(lastMsgs)[msg].suppressed, clock.reading, now)] else []
    {
      lines := [];
      var meta := lastMsgs[msg];
      if now - meta.flushAt < 0 {
        return;
      }
      if meta.suppressed > 0 {
        var line := PrintMore(msg, meta.suppressed, now);
        lines := [line];
        Remember(now, msg);
      } else {
        lastMsgs := lastMsgs - {msg};
      }
    }

    /** maybeFlush: the map is updated and deleted from while it is ranged over, in whatever order
        the runtime chooses. */
    method MaybeFlush() returns (now: int)
      modifies this, clock
      ensures old(clock.reading) <= now <= clock.reading
      ensures lastMsgs == Ticked(old(lastMsgs), now, window)
      ensures old(output) <= output && TickLines(old(lastMsgs), now, output[|old(output)|..])
      ensures forall msg :: msg in old(lastMsgs) ==>
        (msg !in lastMsgs <==> old(lastMsgs)[msg].flushAt <= now && old(lastMsgs)[msg].suppressed == 0)
      ensures forall i :: |old(output)| <= i < |output| ==> output[i].at <= clock.reading
    {
      hide Due, Ticked, Printed;
      now := clock.Now();
      ghost var before := lastMsgs;
      ghost var after := Ticked(before, now, window);
      var todo := lastMsgs.Keys;
      ghost var printed: seq<Line> := [];
      NothingPrinted(before, now, clock.reading);
      while todo != {}
        invariant todo <= before.Keys
        invariant forall m :: m in todo ==> m in lastMsgs && lastMsgs[m] == before[m]
        invariant forall m :: m !in todo ==> (m in lastMsgs <==> m in after) && (m in after ==> lastMsgs[m] == after[m])
        invariant output == old(output) + printed && now <= clock.reading
        invariant Printed(before, now, before.Keys - todo, printed, clock.reading)
        decreases todo
      {
        var msg :| msg in todo;
        VisitIsLocal(before, lastMsgs, now, window, msg);
        ghost var reading := clock.reading;
        ghost var lines := Visit(msg, now);
        PrintedVisit(before, now, before.Keys - todo, printed, reading, msg, lines, clock.reading);
        assert before.Keys - todo + {msg} == before.Keys - (todo - {msg});
        todo := todo - {msg};
        printed := printed + lines;
      }
      assert before.Keys - {} == before.Keys;
      AllPrinted(before, now, printed, clock.reading);
      forall msg | msg in before
        ensures msg !in after <==> before[msg].flushAt <= now && before[msg].suppressed == 0
      {
        TickKeeps(before, now, window, msg);
      }
      assert output[|old(output)|..] == printed;
    }

    /** forceFlush */
    method ForceFlush()
      modifies this, clock
      ensures clock.reading >= old(clock.reading)
      ensures lastMsgs == map[]
      ensures old(output) <= output && CloseLines(old(lastMsgs), old(clock.reading), output[|old(output)|..])
    {
      hide Texts;
      ghost var before := lastMsgs;
      var todo := lastMsgs.Keys;
      ghost var printed: seq<Line> := [];
      NothingRemaining(before);
      while todo != {}
        invariant todo <= before.Keys
        invariant forall m :: m in todo ==> m in lastMsgs && lastMsgs[m] == before[m]
        invariant forall m :: m !in todo ==> m !in lastMsgs
        invariant output == old(output) + printed
        invariant forall i :: 0 <= i < |printed| ==> printed[i].Closing?
        invariant InTime(printed, old(clock.reading)) && old(clock.reading) <= clock.reading
        invariant forall i :: 0 <= i < |printed| ==> printed[i].at <= clock.reading
        invariant Texts(printed) == multiset(RemainingOf(before, before.Keys - todo))
        decreases todo
      {
        var msg :| msg in todo;
        OneMoreRemaining(before, before.Keys - todo, msg);
        assert before.Keys - todo + {msg} == before.Keys - (todo - {msg});
        todo := todo - {msg};
        var meta := lastMsgs[msg];
        if meta.suppressed > 0 {
          var at := clock.Now();
          var line := Closing(msg, meta.suppressed, at);
          TextsAppend(printed, line);
          output := output + [line];
          printed := printed + [line];
        }
        lastMsgs := lastMsgs - {msg};
      }
      assert RemainingOf(before, before.Keys - {}) == Remaining(before);
      assert output[|old(output)|..] == printed;
    }
  }

  /** Whatever visits before did to other entries, a visit sees its own entry unchanged. */
  lemma VisitIsLocal(before: Entries, current: Entries, now: int, window: int, msg: Message)
    requires msg in before && msg in current && current[msg] == before[msg]
    ensures Due(before, msg, now) == Due(current, msg, now)
    ensures msg in Ticked(before, now, window) <==> msg in Ticked(current, now, window)
    ensures msg in Ticked(before, now, window) ==> Ticked(before, now, window)[msg] == Ticked(current, now, window)[msg]
  {
  }

  /** What has been reported once the messages in `done` have been visited. */
  function TickReportOf(entries: Entries, now: int, done: set<Message>): set<(Message, nat)> {
    set msg | msg in done && msg in entries && Due(entries, msg, now) && entries[msg].suppressed > 0 ::
      (msg, entries[msg].suppressed)
  }

  lemma OneMoreReported(entries: Entries, now: int, done: set<Message>, msg: Message)
    requires msg in entries && msg !in done
    ensures multiset(TickReportOf(entries, now, done + {msg})) ==
            multiset(TickReportOf(entries, now, done)) +
            (if Due(entries, msg, now) && entries[msg].suppressed > 0
             then multiset{(msg, entries[msg].suppressed)} else multiset{})
  {
    var one := (msg, entries[msg].suppressed);
    assert one !in TickReportOf(entries, now, done);
    assert TickReportOf(entries, now, done + {msg}) ==
           TickReportOf(entries, now, done) + (if Due(entries, msg, now) && entries[msg].suppressed > 0 then {one} else {});
  }

  /** The lines of a tick that read `now`, when the messages in `done` have been visited. */
  ghost predicate Printed(entries: Entries, now: int, done: set<Message>, lines: seq<Line>, reading: int) {
    && (forall i :: 0 <= i < |lines| ==> lines[i].More? && lines[i].since == now && lines[i].at <= reading)
    && InTime(lines, now)
    && Texts(lines) == multiset(TickReportOf(entries, now, done))
  }

  lemma NothingPrinted(entries: Entries, now: int, reading: int)
    ensures Printed(entries, now, entries.Keys - entries.Keys, [], reading)
  {
    assert TickReportOf(entries, now, entries.Keys - entries.Keys) == {};
  }

  lemma InTimeAppend(lines: seq<Line>, from: int, line: Line)
    requires InTime(lines, from) && from <= line.at && forall i :: 0 <= i < |lines| ==> lines[i].at <= line.at
    ensures InTime(lines + [line], from)
  {
  }

  lemma PrintedVisit(entries: Entries, now: int, done: set<Message>, lines: seq<Line>, reading: int,
                     msg: Message, more: seq<Line>, later: int)
    requires Printed(entries, now, done, lines, reading) && now <= reading <= later
    requires msg in entries && msg !in done
    requires more == if Due(entries, msg, now) && entries[msg].suppressed > 0
                     then [More(msg, entries[msg].suppressed, later, now)] else []
    ensures Printed(entries, now, done + {msg}, lines + more, later)
  {
    OneMoreReported(entries, now, done, msg);
    hide TickReportOf, Texts, Due;
    if more == [] {
      assert lines + more == lines;
    } else {
      TextsAppend(lines, more[0]);
      InTimeAppend(lines, now, more[0]);
      hide InTime;
    }
  }

  lemma AllPrinted(entries: Entries, now: int, lines: seq<Line>, reading: int)
    requires Printed(entries, now, entries.Keys, lines, reading)
    ensures TickLines(entries, now, lines)
    ensures forall i :: 0 <= i < |lines| ==> lines[i].at <= reading
  {
    assert TickReportOf(entries, now, entries.Keys) == TickReport(entries, now);
  }

  function RemainingOf(entries: Entries, done: set<Message>): set<(Message, nat)> {
    set msg | msg in done && msg in entries && entries[msg].suppressed > 0 :: (msg, entries[msg].suppressed)
  }

  lemma NothingRemaining(entries: Entries)
    ensures RemainingOf(entries, entries.Keys - entries.Keys) == {}
    ensures Texts([]) == multiset{}
  {
  }

  lemma OneMoreRemaining(entries: Entries, done: set<Message>, msg: Message)
    requires msg in entries && msg !in done
    ensures multiset(RemainingOf(entries, done + {msg})) ==
            multiset(RemainingOf(entries, done)) +
            (if entries[msg].suppressed > 0 then multiset{(msg, entries[msg].suppressed)} else multiset{})
  {
    var one := (msg, entries[msg].suppressed);
    assert one !in RemainingOf(entries, done);
    assert RemainingOf(entries, done + {msg}) ==
           RemainingOf(entries, done) + (if entries[msg].suppressed > 0 then {one} else {});
  }
}
