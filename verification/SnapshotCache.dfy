/**
 The two-level cache in front of the aggregator: the snapshot with its valid flag and 10 ms time
 to live, rewritten in place, and the report text with its version and 500 ms deadline. Getters,
 printers and the aggregator goroutine interleave step by step; time passes in between.
 */
module SnapshotCache {
  import opened Options
  import Aggregators
  import Reports

  /** The two times to live, 10 ms and 500 ms, in nanoseconds like every clock reading here. */
  const SNAPSHOT_TTL: int := Aggregators.SNAPSHOT_TTL
  const REPORT_TTL: int := Reports.REPORT_TTL

  /** A change of the aggregator's content, kept part by part: one for every kind. */
  datatype Stamp<P> = Stamp(at: int, content: seq<P>)

  /** The aggregator goroutine: at its select; having accepted a request; copying part i into the
      snapshot; about to answer; gone. */
  datatype AggPc = Select | Decide | Build(i: nat) | Reply | Stopped

  /** A goroutine inside getReportText (`printing`) or inside getSnapshot alone. The order of the
      stations: r.mu wanted, held; snapMu wanted, held while asking, waiting for the answer,
      building a snapshot itself after Stop, in the callback; the deadline to be set. */
  datatype ReaderPc = Out | WantReport | HaveReport | WantSnap | Asking | Awaiting | Building(i: nat)
                    | InCallback | Stamping

  datatype Reader = Reader(pc: ReaderPc, printing: bool)

  /** `madeAt` is the clock reading behind the deadline. */
  datatype Snap<P> = Snap(version: nat, parts: seq<P>, deadline: int, valid: bool, madeAt: int)

  /** The report cache; a text is represented by the content it was rendered from. `moment`: when
      that was the aggregator's state. `decided`, `stamped`: when the refresh that last confirmed
      it looked at the snapshot, and when it set the deadline. */
  datatype Cache<P> = Cache(text: Option<seq<P>>, version: nat, deadline: int, moment: int, decided: int, stamped: int)

  /** A call of getReportText that settled on its text at time `at`. */
  datatype Served<P> = Served(at: int, text: Option<seq<P>>, moment: int, refresh: int)

  datatype State<P> = State(
    now: int,
    content: seq<P>,
    timeline: seq<Stamp<P>>,
    snap: Snap<P>,
    agg: AggPc,
    stop: bool,
    readers: seq<Reader>,
    snapMu: Option<nat>,
    reportMu: Option<nat>,
    // when the snapshot given to the holder of snapMu was looked at, and a moment it is true of
    decided: int,
    moment: int,
    cache: Cache<P>,
    served: seq<Served<P>>)

  /** A fresh aggregator and printer, n goroutines that may call them. The zero deadlines lie in
      the past. */
  function Init<P>(now: int, content: seq<P>, n: nat): State<P> {
    State(now, content, [Stamp(now, content)], Snap(0, content, now, false, now), Select, false,
          seq(n, _ => Reader(Out, false)), None, None, now, now, Cache(None, 0, now, now, now, now), [])
  }

  // ---- events ----

  datatype AggEvent<P> =
    | Change(content: seq<P>)   // rotate, or samples recorded
    | Accept                    // <-a.snapCh
    | Look                      // the test of valid flag and deadline
    | Copy                      // one step of makeSnapshot
    | Answer                    // a.snapCh <-
    | Quit                      // <-a.stop

  datatype ReaderEvent =
    | CallReport | CallGetter   // getReportText; getSnapshot
    | LockReport | CheckDeadline | LockSnap
    | Done                      // <-a.done
    | CopyOwn                   // one step of makeSnapshot by the getter itself
    | Callback                  // fn(&a.snap), unlock
    | SetDeadline               // and return

  datatype Event<P> = AggAct(ae: AggEvent<P>) | ReaderAct(r: nat, re: ReaderEvent)
                    | Advance(ns: nat) | StopSignal

  predicate AggCan<P>(s: State<P>, e: AggEvent<P>) {
    match e
    case Change(content) => s.agg.Select? && |content| == |s.content|
    case Accept => s.agg.Select? && s.snapMu.Some? && s.snapMu.value < |s.readers| && s.readers[s.snapMu.value].pc.Asking?
    case Look => s.agg.Decide?
    case Copy => s.agg.Build?
    case Answer => s.agg.Reply? && s.snapMu.Some? && s.snapMu.value < |s.readers| && s.readers[s.snapMu.value].pc.Awaiting?
    case Quit => s.agg.Select? && s.stop
  }

  predicate ReaderCan<P>(s: State<P>, r: nat, e: ReaderEvent) {
    && r < |s.readers|
    && var reader := s.readers[r];
       match e
       case CallReport => reader.pc.Out?
       case CallGetter => reader.pc.Out?
       case LockReport => reader.pc.WantReport? && s.reportMu.None?
       case CheckDeadline => reader.pc.HaveReport?
       case LockSnap => reader.pc.WantSnap? && s.snapMu.None?
       case Done => reader.pc.Asking? && s.agg.Stopped?
       case CopyOwn => reader.pc.Building?
       case Callback => reader.pc.InCallback?
       case SetDeadline => reader.pc.Stamping?
  }

  function At<P>(s: State<P>, r: nat, pc: ReaderPc): State<P>
    requires r < |s.readers|
  {
    s.(readers := s.readers[r := s.readers[r].(pc := pc)])
  }

  /** One step of makeSnapshot: a part copied in place, or, after the last, the deadline and the
      valid flag. The version was raised first. */
  function CopyPart<P>(s: State<P>, i: nat): (t: State<P>)
    ensures t == s.(snap := t.snap, moment := t.moment)
    ensures t.snap.version == s.snap.version
  {
    if i < |s.snap.parts| && i < |s.content| then s.(snap := s.snap.(parts := s.snap.parts[i := s.content[i]]))
    else s.(snap := s.snap.(deadline := s.now + SNAPSHOT_TTL, valid := true, madeAt := s.now), moment := s.now)
  }

  /** The snapshot is taken as it is: true now when valid, otherwise true when it was made. */
  function KeepSnap<P>(s: State<P>): (t: State<P>)
    ensures t == s.(decided := t.decided, moment := t.moment)
  {
    s.(decided := s.now, moment := if s.snap.valid then s.now else s.snap.madeAt)
  }

  function StartBuild<P>(s: State<P>): (t: State<P>)
    ensures t == s.(decided := t.decided, snap := t.snap)
  {
    s.(decided := s.now, snap := s.snap.(version := s.snap.version + 1))
  }

  function AggStep<P>(s: State<P>, e: AggEvent<P>): State<P>
    requires AggCan(s, e)
  {
    match e
    case Change(content) =>
      s.(content := content, timeline := s.timeline + [Stamp(s.now, content)], snap := s.snap.(valid := false))
    case Accept => At(s, s.snapMu.value, Awaiting).(agg := Decide)
    case Look =>
      if !s.snap.valid && s.now >= s.snap.deadline then StartBuild(s).(agg := Build(0))
      else KeepSnap(s).(agg := Reply)
    case Copy =>
      var i := s.agg.i;
      CopyPart(s, i).(agg := if i < |s.snap.parts| && i < |s.content| then Build(i + 1) else Reply)
    case Answer => At(s, s.snapMu.value, InCallback).(agg := Select)
    case Quit => s.(agg := Stopped)
  }

  function ReaderStep<P>(s: State<P>, r: nat, e: ReaderEvent): State<P>
    requires ReaderCan(s, r, e)
  {
    match e
    case CallReport => s.(readers := s.readers[r := Reader(WantReport, true)])
    case CallGetter => s.(readers := s.readers[r := Reader(WantSnap, false)])
    case LockReport => At(s, r, HaveReport).(reportMu := Some(r))
    case CheckDeadline =>
      if s.now < s.cache.deadline then
        At(s, r, Out).(reportMu := None,
          served := s.served + [Served(s.now, s.cache.text, s.cache.moment, s.cache.stamped - s.cache.decided)])
      else At(s, r, WantSnap)
    case LockSnap => At(s, r, Asking).(snapMu := Some(r))
    case Done => if s.snap.valid then At(KeepSnap(s), r, InCallback) else At(StartBuild(s), r, Building(0))
    case CopyOwn =>
      var i := s.readers[r].pc.i;
      At(CopyPart(s, i), r, if i < |s.snap.parts| && i < |s.content| then Building(i + 1) else InCallback)
    case Callback =>
      if !s.readers[r].printing then At(s, r, Out).(snapMu := None)
      else
        At(s, r, Stamping).(snapMu := None,
          cache := s.cache.(
            text := if s.cache.version == s.snap.version then s.cache.text else Some(s.snap.parts),
            version := s.snap.version, moment := s.moment, decided := s.decided))
    case SetDeadline =>
      var cache := s.cache.(deadline := s.now + REPORT_TTL, stamped := s.now);
      At(s, r, Out).(reportMu := None, cache := cache,
        served := s.served + [Served(s.now, cache.text, cache.moment, cache.stamped - cache.decided)])
  }

  predicate Enabled<P>(s: State<P>, e: Event<P>) {
    match e
    case AggAct(ae) => AggCan(s, ae)
    case ReaderAct(r, re) => ReaderCan(s, r, re)
    case Advance(_) => true
    case StopSignal => !s.stop
  }

  function Apply<P>(s: State<P>, e: Event<P>): State<P>
    requires Enabled(s, e)
  {
    match e
    case AggAct(ae) => AggStep(s, ae)
    case ReaderAct(r, re) => ReaderStep(s, r, re)
    case Advance(ns) => s.(now := s.now + ns)
    case StopSignal => s.(stop := true)
  }

  predicate IsRun<P>(s: State<P>, events: seq<Event<P>>)
    decreases |events|
  {
    events == [] || (Enabled(s, events[0]) && IsRun(Apply(s, events[0]), events[1..]))
  }

  function Execute<P>(s: State<P>, events: seq<Event<P>>): State<P>
    requires IsRun(s, events)
    decreases |events|
  {
    if events == [] then s else Execute(Apply(s, events[0]), events[1..])
  }

  // ---- the state at a moment ----

  /** Stretch i of the timeline lasts until the next change, the last one until now. */
  predicate Lasts<P>(timeline: seq<Stamp<P>>, now: int, i: nat, moment: int)
    requires i < |timeline|
  {
    timeline[i].at <= moment <= (if i + 1 < |timeline| then timeline[i + 1].at else now)
  }

  /** At that moment the aggregator's content was `parts`. */
  ghost predicate WasState<P>(timeline: seq<Stamp<P>>, now: int, moment: int, parts: seq<P>) {
    exists i: nat :: i < |timeline| && Lasts(timeline, now, i, moment) && timeline[i].content == parts
  }

  lemma WasStateLater<P>(timeline: seq<Stamp<P>>, now: int, later: int, moment: int, parts: seq<P>)
    requires WasState(timeline, now, moment, parts) && now <= later
    ensures WasState(timeline, later, moment, parts)
  {
    var i: nat :| i < |timeline| && Lasts(timeline, now, i, moment) && timeline[i].content == parts;
    assert Lasts(timeline, later, i, moment);
  }

  lemma WasStateChanged<P>(timeline: seq<Stamp<P>>, now: int, stamp: Stamp<P>, moment: int, parts: seq<P>)
    requires WasState(timeline, now, moment, parts) && stamp.at == now
    ensures WasState(timeline + [stamp], now, moment, parts)
  {
    var i: nat :| i < |timeline| && Lasts(timeline, now, i, moment) && timeline[i].content == parts;
    assert Lasts(timeline + [stamp], now, i, moment);
  }

  // ---- invariant ----

  predicate HoldsSnap(pc: ReaderPc) {
    pc.Asking? || pc.Awaiting? || pc.Building? || pc.InCallback?
  }

  predicate HoldsReport(reader: Reader) {
    reader.printing && !reader.pc.Out? && !reader.pc.WantReport?
  }

  /** The mutexes as far as reader r is concerned; stations that only printing goroutines pass. */
  predicate OwnLocks(reader: Reader, r: nat, snapMu: Option<nat>, reportMu: Option<nat>) {
    && (HoldsSnap(reader.pc) <==> snapMu == Some(r))
    && (HoldsReport(reader) <==> reportMu == Some(r))
    && ((reader.pc.WantReport? || reader.pc.HaveReport? || reader.pc.Stamping?) ==> reader.printing)
  }

  /** The two mutexes. */
  predicate Locks<P>(s: State<P>) {
    && (forall r: nat :: r < |s.readers| ==> OwnLocks(s.readers[r], r, s.snapMu, s.reportMu))
    && (s.snapMu.Some? ==> s.snapMu.value < |s.readers|)
    && (s.reportMu.Some? ==> s.reportMu.value < |s.readers|)
  }

  /** The one holder of snapMu. */
  function Holder<P>(s: State<P>): ReaderPc {
    if s.snapMu.Some? && s.snapMu.value < |s.readers| then s.readers[s.snapMu.value].pc else Out
  }

  /** Requests and answers on the one unbuffered channel never cross. */
  predicate Handshake<P>(s: State<P>) {
    && (Holder(s).Awaiting? <==> s.agg.Decide? || s.agg.Build? || s.agg.Reply?)
    && (Holder(s).Building? ==> s.agg.Stopped?)
    && (s.agg.Stopped? ==> s.stop)
  }

  /** How far the snapshot under construction, if any, has got. */
  function Progressed<P>(s: State<P>): Option<nat> {
    if s.agg.Build? then Some(s.agg.i)
    else if Holder(s).Building? then Some(Holder(s).i)
    else None
  }

  ghost predicate History<P>(s: State<P>) {
    && s.timeline != []
    && s.timeline[|s.timeline| - 1].content == s.content
    && s.timeline[|s.timeline| - 1].at <= s.now
  }

  /** A snapshot under construction agrees with the content so far and is not yet marked valid; a
      finished one was the state when it was made; a valid one is the state now. */
  ghost predicate Snapshot<P>(s: State<P>) {
    && |s.snap.parts| == |s.content|
    && (s.snap.valid ==> s.snap.parts == s.content && s.snap.version > 0)
    && s.snap.deadline <= s.snap.madeAt + SNAPSHOT_TTL
    && s.snap.madeAt <= s.now
    && (s.snap.version == 0 ==> s.snap.deadline <= s.now)
    && match Progressed(s)
       case Some(i) =>
         s.snap.version > 0 && !s.snap.valid && i <= |s.content| && s.snap.parts[..i] == s.content[..i]
       case None =>
         s.snap.version > 0 ==> WasState(s.timeline, s.now, s.snap.madeAt, s.snap.parts)
  }

  /** What is handed to a callback: a finished snapshot, true of a moment not ten milliseconds
      before it was looked at. */
  ghost predicate Handed<P>(s: State<P>) {
    && s.decided <= s.now
    && (s.agg.Reply? || Holder(s).InCallback? ==>
          && s.snap.version > 0
          && WasState(s.timeline, s.now, s.moment, s.snap.parts)
          && s.decided - SNAPSHOT_TTL < s.moment <= s.now)
  }

  /** The holder of r.mu. */
  function ReportHolder<P>(s: State<P>): ReaderPc {
    if s.reportMu.Some? && s.reportMu.value < |s.readers| then s.readers[s.reportMu.value].pc else Out
  }

  /** The cached text belongs to the cached version, and equal versions mean equal contents. */
  ghost predicate Cached<P>(s: State<P>) {
    && s.cache.version <= s.snap.version
    && (s.cache.version == 0 <==> s.cache.text.None?)
    && (Progressed(s).Some? ==> s.cache.version < s.snap.version)
    && (s.cache.version == s.snap.version && s.cache.text.Some? ==> s.cache.text.value == s.snap.parts)
    && s.cache.deadline <= s.cache.stamped + REPORT_TTL
    && (s.cache.text.None? ==> s.cache.deadline <= s.now)
    && s.cache.decided <= s.now && s.cache.stamped <= s.now
    && (s.cache.text.Some? ==>
          && WasState(s.timeline, s.now, s.cache.moment, s.cache.text.value)
          && s.cache.decided - SNAPSHOT_TTL < s.cache.moment <= s.now)
    && (ReportHolder(s).Stamping? ==> s.cache.text.Some?)
    && (ReportHolder(s).Stamping? || s.cache.decided <= s.cache.stamped)
  }

  /** How old a text can be, not counting its refresh: short of 510 ms, by one tick of the clock for
      each of the two deadlines. */
  const STALENESS: int := (SNAPSHOT_TTL - 1) + (REPORT_TTL - 1)

  /** A text that was served: never missing, and the state of the aggregator at a moment less than
      510 ms and the duration of the refresh before. */
  ghost predicate Fresh<P>(timeline: seq<Stamp<P>>, now: int, served: Served<P>) {
    && served.text.Some?
    && served.refresh >= 0
    && served.at <= now
    && served.at - STALENESS - served.refresh <= served.moment <= served.at
    && WasState(timeline, now, served.moment, served.text.value)
  }

  ghost predicate AllFresh<P>(s: State<P>) {
    forall i :: 0 <= i < |s.served| ==> Fresh(s.timeline, s.now, s.served[i])
  }

  ghost predicate Inv<P>(s: State<P>) {
    Locks(s) && Handshake(s) && History(s) && Snapshot(s) && Handed(s) && Cached(s) && AllFresh(s)
  }

  lemma InitInv<P>(now: int, content: seq<P>, n: nat)
    ensures Inv(Init(now, content, n))
  {
    assert Lasts(Init(now, content, n).timeline, now, 0, now);
  }

  // ---- locks and handshake ----

  lemma AggKeepsProtocol<P>(s: State<P>, ae: AggEvent<P>)
    requires Locks(s) && Handshake(s) && AggCan(s, ae)
    ensures Locks(AggStep(s, ae)) && Handshake(AggStep(s, ae))
  {
  }

  /** A step of reader r takes or frees a mutex for itself only. */
  lemma OneReader<P>(s: State<P>, t: State<P>, r: nat)
    requires Locks(s) && r < |s.readers| == |t.readers| && t.readers == s.readers[r := t.readers[r]]
    requires OwnLocks(t.readers[r], r, t.snapMu, t.reportMu)
    requires t.snapMu == s.snapMu || (s.snapMu in {None, Some(r)} && t.snapMu in {None, Some(r)})
    requires t.reportMu == s.reportMu || (s.reportMu in {None, Some(r)} && t.reportMu in {None, Some(r)})
    ensures Locks(t)
  {
  }

  lemma ReaderKeepsLocks<P>(s: State<P>, r: nat, re: ReaderEvent)
    requires Locks(s) && ReaderCan(s, r, re)
    ensures Locks(ReaderStep(s, r, re))
  {
    assert OwnLocks(s.readers[r], r, s.snapMu, s.reportMu);
    hide Locks, CopyPart, KeepSnap, StartBuild;
    OneReader(s, ReaderStep(s, r, re), r);
  }

  lemma ReaderKeepsHandshake<P>(s: State<P>, r: nat, re: ReaderEvent)
    requires Locks(s) && Handshake(s) && ReaderCan(s, r, re)
    ensures Handshake(ReaderStep(s, r, re))
  {
    hide CopyPart;
  }

  // ---- the snapshot ----

  lemma AggKeepsSnapshot<P>(s: State<P>, ae: AggEvent<P>)
    requires Locks(s) && Handshake(s) && History(s) && Snapshot(s) && AggCan(s, ae)
    ensures History(AggStep(s, ae)) && Snapshot(AggStep(s, ae))
  {
    hide Locks;
    match ae
    case Change(content) =>
      assert Progressed(s).None?;
      if s.snap.version > 0 {
        WasStateChanged(s.timeline, s.now, Stamp(s.now, content), s.snap.madeAt, s.snap.parts);
      }
    case Copy => CopyKeepsSnapshot(s, s.agg.i);
    case _ =>
  }

  /** A step of makeSnapshot, whoever takes it. */
  lemma CopyKeepsSnapshot<P>(s: State<P>, i: nat)
    requires History(s) && Snapshot(s) && Progressed(s) == Some(i)
    ensures var t := CopyPart(s, i);
      && |t.snap.parts| == |s.content| && t.snap.version > 0
      && t.snap.madeAt <= s.now && t.snap.deadline <= t.snap.madeAt + SNAPSHOT_TTL
      && (if i < |s.content| then !t.snap.valid && t.snap.parts[..i + 1] == s.content[..i + 1]
          else t.snap.valid && t.snap.parts == s.content && t.snap.madeAt == s.now
               && WasState(s.timeline, s.now, s.now, t.snap.parts))
  {
    if i >= |s.content| {
      assert s.snap.parts == s.snap.parts[..i] == s.content[..i] == s.content;
      assert Lasts(s.timeline, s.now, |s.timeline| - 1, s.now);
    }
  }

  lemma ReaderKeepsSnapshot<P>(s: State<P>, r: nat, re: ReaderEvent)
    requires Locks(s) && Handshake(s) && History(s) && Snapshot(s) && ReaderCan(s, r, re)
    ensures History(ReaderStep(s, r, re)) && Snapshot(ReaderStep(s, r, re))
  {
    hide WasState;
    if re.CopyOwn? {
      CopyKeepsSnapshot(s, s.readers[r].pc.i);
    }
  }

  // ---- what callbacks are given ----

  lemma AggKeepsHanded<P>(s: State<P>, ae: AggEvent<P>)
    requires Locks(s) && Handshake(s) && History(s) && Snapshot(s) && Handed(s) && AggCan(s, ae)
    ensures Handed(AggStep(s, ae))
  {
    hide Locks;
    match ae
    case Change(content) =>
      if Holder(s).InCallback? {
        WasStateChanged(s.timeline, s.now, Stamp(s.now, content), s.moment, s.snap.parts);
      }
    case Look => LookIsFresh(s);
    case Copy => CopyKeepsSnapshot(s, s.agg.i);
    case _ =>
  }

  /** A snapshot that need not be redone is valid, or was made less than 10 ms ago. */
  lemma LookIsFresh<P>(s: State<P>)
    requires History(s) && Snapshot(s) && Progressed(s).None?
    ensures s.snap.valid || s.now < s.snap.deadline ==>
      var t := KeepSnap(s);
      && s.snap.version > 0
      && WasState(s.timeline, s.now, t.moment, s.snap.parts)
      && t.decided - SNAPSHOT_TTL < t.moment <= s.now
  {
    if s.snap.valid {
      assert Lasts(s.timeline, s.now, |s.timeline| - 1, s.now);
    }
  }

  lemma ReaderKeepsHanded<P>(s: State<P>, r: nat, re: ReaderEvent)
    requires Locks(s) && Handshake(s) && History(s) && Snapshot(s) && Handed(s) && ReaderCan(s, r, re)
    ensures Handed(ReaderStep(s, r, re))
  {
    hide WasState;
    match re
    case Done => LookIsFresh(s);
    case CopyOwn => CopyKeepsSnapshot(s, s.readers[r].pc.i);
    case _ =>
  }

  // ---- the report cache ----

  lemma AggKeepsCached<P>(s: State<P>, ae: AggEvent<P>)
    requires Locks(s) && Handshake(s) && Snapshot(s) && Cached(s) && AggCan(s, ae)
    ensures Cached(AggStep(s, ae))
  {
    hide Locks, WasState;
    match ae
    case Change(content) =>
      if s.cache.text.Some? {
        WasStateChanged(s.timeline, s.now, Stamp(s.now, content), s.cache.moment, s.cache.text.value);
      }
    case _ =>
  }

  lemma ReaderKeepsCached<P>(s: State<P>, r: nat, re: ReaderEvent)
    requires Locks(s) && Handshake(s) && Snapshot(s) && Handed(s) && Cached(s) && ReaderCan(s, r, re)
    ensures Cached(ReaderStep(s, r, re))
  {
    hide WasState;
    match re
    case Callback =>
    case SetDeadline =>
    case CopyOwn =>
    case _ =>
  }

  lemma ServeIsFresh<P>(s: State<P>, r: nat, re: ReaderEvent)
    requires Locks(s) && Cached(s) && ReaderCan(s, r, re) && AllFresh(s)
    ensures AllFresh(ReaderStep(s, r, re))
  {
    hide WasState;
  }

  // ---- all together ----

  lemma AggKeepsInv<P>(s: State<P>, ae: AggEvent<P>)
    requires Inv(s) && AggCan(s, ae)
    ensures Inv(AggStep(s, ae))
  {
    AggKeepsProtocol(s, ae);
    AggKeepsSnapshot(s, ae);
    AggKeepsHanded(s, ae);
    AggKeepsCached(s, ae);
    hide Locks, Handshake, History, Snapshot, Handed, Cached, WasState;
    var t := AggStep(s, ae);
    forall i | 0 <= i < |s.served| ensures Fresh(t.timeline, t.now, s.served[i]) {
      assert Fresh(s.timeline, s.now, s.served[i]);
      if ae.Change? {
        WasStateChanged(s.timeline, s.now, Stamp(s.now, ae.content), s.served[i].moment, s.served[i].text.value);
      }
    }
  }

  lemma ReaderKeepsInv<P>(s: State<P>, r: nat, re: ReaderEvent)
    requires Inv(s) && ReaderCan(s, r, re)
    ensures Inv(ReaderStep(s, r, re))
  {
    hide Locks, Handshake, History, Snapshot, Handed, Cached, AllFresh, ReaderStep, ReaderCan;
    ReaderKeepsLocks(s, r, re);
    ReaderKeepsHandshake(s, r, re);
    ReaderKeepsSnapshot(s, r, re);
    ReaderKeepsHanded(s, r, re);
    ReaderKeepsCached(s, r, re);
    ServeIsFresh(s, r, re);
  }

  /** Time passing spoils nothing; texts age only through the clock readings at serving. */
  lemma AdvanceKeepsInv<P>(s: State<P>, ns: nat)
    requires Inv(s)
    ensures Inv(s.(now := s.now + ns))
  {
    hide WasState;
    var t := s.(now := s.now + ns);
    forall moment, parts | WasState(s.timeline, s.now, moment, parts) ensures WasState(t.timeline, t.now, moment, parts) {
      WasStateLater(s.timeline, s.now, t.now, moment, parts);
    }
    forall i | 0 <= i < |s.served| ensures Fresh(t.timeline, t.now, s.served[i]) {
      assert Fresh(s.timeline, s.now, s.served[i]);
    }
  }

  lemma StopKeepsInv<P>(s: State<P>)
    requires Inv(s)
    ensures Inv(s.(stop := true))
  {
    hide WasState, Fresh;
    assert AllFresh(s.(stop := true));
  }

  lemma InvKept<P>(s: State<P>, e: Event<P>)
    requires Inv(s) && Enabled(s, e)
    ensures Inv(Apply(s, e))
  {
    hide Inv, AggStep, ReaderStep, AggCan, ReaderCan;
    match e
    case AggAct(ae) => AggKeepsInv(s, ae);
    case ReaderAct(r, re) => ReaderKeepsInv(s, r, re);
    case Advance(ns) => AdvanceKeepsInv(s, ns);
    case StopSignal => StopKeepsInv(s);
  }

  lemma {:induction false} RunKeepsInv<P>(s: State<P>, events: seq<Event<P>>)
    requires Inv(s) && IsRun(s, events)
    ensures Inv(Execute(s, events))
    decreases |events|
  {
    hide Inv, Enabled, Apply;
    if events != [] {
      InvKept(s, events[0]);
      RunKeepsInv(Apply(s, events[0]), events[1..]);
    }
  }

  // ---- main results ----

  /** In every run, every report text that is served is the rendering of the aggregator's state at
      some moment less than 510 ms, plus the time the refresh behind it took, before. It is never
      missing. How sharp this is says lemma SnapshotStaleness.StalenessIsExact. */
  lemma ReportsAreFresh<P>(now: int, content: seq<P>, n: nat, events: seq<Event<P>>, i: nat)
    requires IsRun(Init(now, content, n), events)
    requires i < |Execute(Init(now, content, n), events).served|
    ensures var s := Execute(Init(now, content, n), events);
      Fresh(s.timeline, s.now, s.served[i])
  {
    hide Enabled, Apply, Init;
    InitInv(now, content, n);
    RunKeepsInv(Init(now, content, n), events);
  }

  /** What a callback is given is never torn, whatever the aggregator does meanwhile: all its
      parts are the state at one moment, less than 10 ms before the request was looked at. Nobody
      is building a snapshot then. */
  lemma CallbacksAreUntorn<P>(now: int, content: seq<P>, n: nat, events: seq<Event<P>>, r: nat)
    requires IsRun(Init(now, content, n), events)
    requires r < |Execute(Init(now, content, n), events).readers|
    requires Execute(Init(now, content, n), events).readers[r].pc.InCallback?
    ensures var s := Execute(Init(now, content, n), events);
      && !s.agg.Build?
      && (forall q :: 0 <= q < |s.readers| ==> !s.readers[q].pc.Building?)
      && WasState(s.timeline, s.now, s.moment, s.snap.parts)
      && s.decided - SNAPSHOT_TTL < s.moment <= s.now
  {
    hide Enabled, Apply, Init;
    InitInv(now, content, n);
    RunKeepsInv(Init(now, content, n), events);
    OneHolder(Execute(Init(now, content, n), events), r);
  }

  lemma OneHolder<P>(s: State<P>, r: nat)
    requires Inv(s) && r < |s.readers| && s.readers[r].pc.InCallback?
    ensures Holder(s) == InCallback && !s.agg.Build?
    ensures forall q :: 0 <= q < |s.readers| ==> !s.readers[q].pc.Building?
  {
    hide History, Snapshot, Handed, Cached, AllFresh;
    assert s.snapMu == Some(r);
    forall q | 0 <= q < |s.readers| ensures !s.readers[q].pc.Building? {
      assert HoldsSnap(s.readers[q].pc) <==> s.snapMu == Some(q);
    }
  }

  /** Events that serve those already inside: neither new calls, nor new data, nor time. */
  predicate Serving<P>(e: Event<P>) {
    match e
    case AggAct(ae) => ae.Accept? || ae.Look? || ae.Copy? || ae.Answer?
    case ReaderAct(_, re) => !re.CallReport? && !re.CallGetter?
    case _ => false
  }

  /** Nobody waits for ever for a lock, a request or an answer, before Stop or after: while any
      goroutine is inside, some step towards serving it is enabled. */
  lemma NobodyIsStuck<P>(s: State<P>, r: nat) returns (e: Event<P>)
    requires Inv(s) && r < |s.readers| && !s.readers[r].pc.Out?
    ensures Serving(e) && Enabled(s, e)
  {
    hide History, Snapshot, Handed, Cached, AllFresh;
    if s.snapMu.Some? {
      e := HolderProgress(s);
    } else {
      match s.readers[r].pc
      case WantSnap => e := ReaderAct(r, LockSnap);
      case WantReport =>
        if s.reportMu.None? {
          e := ReaderAct(r, LockReport);
        } else {
          e := ReportProgress(s, s.reportMu.value);
        }
      case _ => e := ReportProgress(s, r);
    }
  }

  lemma HolderProgress<P>(s: State<P>) returns (e: Event<P>)
    requires Locks(s) && Handshake(s) && s.snapMu.Some?
    ensures Serving(e) && Enabled(s, e)
  {
    var h := s.snapMu.value;
    assert HoldsSnap(s.readers[h].pc);
    match s.readers[h].pc
    case Asking => e := if s.agg.Stopped? then ReaderAct(h, Done) else AggAct(Accept);
    case Awaiting => e := AggAct(if s.agg.Decide? then Look else if s.agg.Build? then Copy else Answer);
    case Building(_) => e := ReaderAct(h, CopyOwn);
    case _ => e := ReaderAct(h, Callback);
  }

  lemma ReportProgress<P>(s: State<P>, h: nat) returns (e: Event<P>)
    requires Locks(s) && s.snapMu.None? && h < |s.readers| && HoldsReport(s.readers[h])
    ensures Serving(e) && Enabled(s, e)
  {
    assert !HoldsSnap(s.readers[h].pc);
    match s.readers[h].pc
    case HaveReport => e := ReaderAct(h, CheckDeadline);
    case WantSnap => e := ReaderAct(h, LockSnap);
    case _ => e := ReaderAct(h, SetDeadline);
  }
}
