/**
 * The append-only event log over its daily files, at the level of file texts: sequence recovery,
 * torn-tail repair, emits, and the crashes that may tear an append at any character.
 */
module EventLog {
  import opened Orders
  import opened Jsonl

  datatype Envelope = Envelope(seqNo: nat, body: string)

  /** canonicalJson and JSON.parse of one envelope. */
  datatype Codec = Codec(encode: Envelope -> string, parse: string -> Option<Envelope>)

  predicate FaithfulTo(c: Codec, e: Envelope) {
    '\n' !in c.encode(e) && c.encode(e) != "" && c.parse(c.encode(e)) == Some(e)
  }

  ghost predicate Faithful(c: Codec) {
    forall e :: FaithfulTo(c, e)
  }

  // ---------------------------------------------------------------------------
  // The store
  // ---------------------------------------------------------------------------

  /** Daily files in date order, newest last; `nextSeq` is lazy and lives in the process. */
  datatype Store = Store(files: seq<string>, nextSeq: Option<nat>)

  function Rows(c: Codec, text: string): seq<Envelope> {
    ParseAll(c.parse, CompleteLines(text))
  }

  function Replay(c: Codec, files: seq<string>): seq<Envelope> {
    ParseAll(c.parse, AllLines(files))
  }

  function LastSeq(rows: seq<Envelope>): nat {
    if rows == [] then 0 else rows[|rows| - 1].seqNo
  }

  /** Read off the newest file alone. */
  function RecoverSeq(c: Codec, files: seq<string>): nat {
    if files == [] then 0 else LastSeq(Rows(c, files[|files| - 1]))
  }

  function RepairNewest(files: seq<string>): seq<string> {
    if files == [] then [] else files[..|files| - 1] + [Repair(files[|files| - 1])]
  }

  function Ready(c: Codec, s: Store): (r: Store)
    ensures r.nextSeq.Some?
  {
    if s.nextSeq.Some? then s else Store(RepairNewest(s.files), Some(RecoverSeq(c, s.files) + 1))
  }

  /** appendFile into today's file, which is a new one on the first append of a day. */
  function AppendText(files: seq<string>, newDay: bool, text: string): seq<string> {
    if newDay || files == [] then files + [text]
    else files[..|files| - 1] + [files[|files| - 1] + text]
  }

  function Line(c: Codec, e: Envelope): string {
    c.encode(e) + "\n"
  }

  function NextEnvelope(c: Codec, s: Store, body: string): Envelope {
    Envelope(Ready(c, s).nextSeq.value, body)
  }

  function EmitInto(c: Codec, s: Store, body: string, newDay: bool): Store {
    var r := Ready(c, s);
    Store(AppendText(r.files, newDay, Line(c, NextEnvelope(c, s, body))), Some(r.nextSeq.value + 1))
  }

  class Log {
    const codec: Codec
    var files: seq<string>
    var nextSeq: Option<nat>

    function Now(): Store
      reads this
    {
      Store(files, nextSeq)
    }

    constructor (c: Codec, onDisk: seq<string>)
      ensures codec == c && Now() == Store(onDisk, None)
    {
      codec, files, nextSeq := c, onDisk, None;
    }

    method RecoverLast() returns (last: nat)
      ensures last == RecoverSeq(codec, files)
    {
      last := 0;
      if files == [] {
        return;
      }
      var newest := files[|files| - 1];
      assert [newest][..0] == [] && AllLines([newest]) == AllLines([]) + CompleteLines(newest);
      var rows := Read(codec.parse, [newest], 0);
      for i := 0 to |rows|
        invariant last == LastSeq(rows[..i])
      {
        last := rows[i].seqNo;
      }
      assert rows[..|rows|] == rows;
    }

    /** A torn final line is cut away before the next append. */
    method RepairTornTail()
      modifies `files
      ensures files == RepairNewest(old(files))
    {
      if files == [] {
        return;
      }
      var newest := files[|files| - 1];
      if EndsWithNewline(newest) {
        return;
      }
      files := files[..|files| - 1] + [newest[..AfterLastNewline(newest)]];
    }

    /** Durable when it returns: the envelope's line is in today's file. */
    method Emit(body: string, newDay: bool) returns (e: Envelope)
      modifies this
      ensures Now() == EmitInto(codec, old(Now()), body, newDay)
      ensures e == NextEnvelope(codec, old(Now()), body)
    {
      if nextSeq.None? {
        var last := RecoverLast();
        nextSeq := Some(last + 1);
        RepairTornTail();
      }
      e := Envelope(nextSeq.value, body);
      nextSeq := Some(nextSeq.value + 1);
      var line := codec.encode(e) + "\n";
      if newDay || files == [] {
        files := files + [line];
      } else {
        files := files[..|files| - 1] + [files[|files| - 1] + line];
      }
    }
  }

  // ---------------------------------------------------------------------------
  // Runs
  // ---------------------------------------------------------------------------

  /** `landed`: envelopes whose whole line reached a file; `resolved`: those whose emit returned. */
  datatype World = World(store: Store, landed: seq<Envelope>, resolved: seq<Envelope>)

  const EMPTY_LOG := World(Store([], None), [], [])

  datatype Event =
    | Emit(body: string, newDay: bool)
    | EmitFailed(unsent: string)
    | CrashInEmit(torn: string, onNewDay: bool, written: nat)
    | Restart

  function Step(c: Codec, w: World, ev: Event): World {
    match ev
    case Emit(body, newDay) =>
      var e := NextEnvelope(c, w.store, body);
      World(EmitInto(c, w.store, body, newDay), w.landed + [e], w.resolved + [e])
    case EmitFailed(_) =>
      var r := Ready(c, w.store);
      w.(store := r.(nextSeq := Some(r.nextSeq.value + 1)))
    case CrashInEmit(body, newDay, k) =>
      var e := NextEnvelope(c, w.store, body);
      var files := AppendText(Ready(c, w.store).files, newDay, Take(Line(c, e), k));
      World(Store(files, None), if k >= |Line(c, e)| then w.landed + [e] else w.landed, w.resolved)
    case Restart => w.(store := w.store.(nextSeq := None))
  }

  /** A reopened log finds its last sequence number: its newest file holds a row, or nothing ever landed. */
  predicate NewestHoldsRow(c: Codec, w: World) {
    w.store.nextSeq.None? ==>
      w.landed == [] || (w.store.files != [] && Rows(c, w.store.files[|w.store.files| - 1]) != [])
  }

  ghost predicate GoodRun(c: Codec, w: World, run: seq<Event>)
    decreases |run|
  {
    run == [] || ((!run[0].Restart? ==> NewestHoldsRow(c, w)) && GoodRun(c, Step(c, w, run[0]), run[1..]))
  }

  function After(c: Codec, w: World, run: seq<Event>): World
    decreases |run|
  {
    if run == [] then w else After(c, Step(c, w, run[0]), run[1..])
  }

  predicate Increasing(rows: seq<Envelope>) {
    forall i, j | 0 <= i < j < |rows| :: rows[i].seqNo < rows[j].seqNo
  }

  predicate Occurs(e: Envelope, rows: seq<Envelope>) {
    e in rows
  }

  /** What landed rises in sequence from 1 on, and every resolved emit is in it. */
  ghost predicate History(landed: seq<Envelope>, resolved: seq<Envelope>) {
    && Increasing(landed)
    && Increasing(resolved)
    && (forall e | e in resolved :: Occurs(e, landed) && e.seqNo <= LastSeq(landed))
    && (forall e | e in landed :: e.seqNo >= 1)
  }

  /** Replay yields exactly what landed. */
  ghost predicate Delivered(c: Codec, w: World) {
    Replay(c, w.store.files) == w.landed && History(w.landed, w.resolved)
  }

  predicate CleanNewest(files: seq<string>) {
    files != [] ==> Scan(files[|files| - 1]).rest == ""
  }

  ghost predicate Inv(c: Codec, w: World) {
    && Faithful(c)
    && Delivered(c, w)
    && (w.store.nextSeq.Some? ==> LastSeq(w.landed) < w.store.nextSeq.value && CleanNewest(w.store.files))
  }

  lemma ReplaySplit(c: Codec, init: seq<string>, newest: string)
    ensures Replay(c, init + [newest]) == Replay(c, init) + Rows(c, newest)
  {
    assert (init + [newest])[..|init|] == init;
    ParseAppend(c.parse, AllLines(init), CompleteLines(newest));
  }

  lemma RepairedNewest(c: Codec, init: seq<string>, newest: string)
    ensures Replay(c, init + [Repair(newest)]) == Replay(c, init + [newest]) == Replay(c, init) + Rows(c, newest)
    ensures Scan(Repair(newest)).rest == ""
  {
    RepairKeepsLines(newest);
    ReplaySplit(c, init, newest);
    ReplaySplit(c, init, Repair(newest));
  }

  lemma RecoversLast(c: Codec, init: seq<string>, newest: string)
    ensures Rows(c, newest) != [] ==>
              Replay(c, init + [newest]) != [] && LastSeq(Replay(c, init + [newest])) == LastSeq(Rows(c, newest))
  {
    ReplaySplit(c, init, newest);
    LastOfBoth(Replay(c, init), Rows(c, newest));
  }

  lemma NothingReplayed(c: Codec)
    ensures Replay(c, []) == []
  {
  }

  /** What reopening makes of the files: the newest repaired, the number after its last row. */
  lemma ReadyFiles(c: Codec, s: Store, init: seq<string>, newest: string)
    requires s.nextSeq.None? && s.files == init + [newest]
    ensures Ready(c, s) == Store(init + [Repair(newest)], Some(LastSeq(Rows(c, newest)) + 1))
  {
    assert s.files[..|s.files| - 1] == init && s.files[|s.files| - 1] == newest;
  }

  lemma ReadyFirst(c: Codec, s: Store)
    requires s.nextSeq.None? && s.files == []
    ensures Ready(c, s) == Store([], Some(1))
  {
  }

  /** Reopening changes no row, cleans the newest tail and, if the newest file holds a row, finds the last sequence number. */
  lemma ReadyKeepsRows(c: Codec, w: World)
    requires Inv(c, w)
    ensures var r := Ready(c, w.store);
            && Replay(c, r.files) == w.landed
            && CleanNewest(r.files)
            && (NewestHoldsRow(c, w) ==> LastSeq(w.landed) < r.nextSeq.value)
            && (!NewestHoldsRow(c, w) ==> r.nextSeq.value == 1)
  {
    var files := w.store.files;
    if w.store.nextSeq.None? && files == [] {
      ReadyFirst(c, w.store);
      NothingReplayed(c);
    } else if w.store.nextSeq.None? {
      var init, newest := files[..|files| - 1], files[|files| - 1];
      assert files == init + [newest];
      ReadyFiles(c, w.store, init, newest);
      RepairedNewest(c, init, newest);
      RecoversLast(c, init, newest);
    }
  }

  lemma LastOfBoth(a: seq<Envelope>, b: seq<Envelope>)
    ensures b != [] ==> LastSeq(a + b) == LastSeq(b)
  {
  }

  lemma RowOfLine(c: Codec, text: string, e: Envelope)
    requires FaithfulTo(c, e) && Scan(text).rest == ""
    ensures Rows(c, text + Line(c, e)) == Rows(c, text) + [e] && Scan(text + Line(c, e)).rest == ""
  {
    var line := c.encode(e);
    assert text + line + "\n" == text + Line(c, e);
    AppendedLine(text, line);
    ScanLine(text, line);
    ParseAppend(c.parse, CompleteLines(text), [line]);
    OneParsed(c, line, e);
    assert "" + line == line;
  }

  lemma OneParsed(c: Codec, line: string, e: Envelope)
    requires c.parse(line) == Some(e)
    ensures ParseAll(c.parse, [line]) == [e]
  {
    assert [line][..0] == [];
  }

  lemma AppendedRow(c: Codec, files: seq<string>, newDay: bool, e: Envelope)
    requires FaithfulTo(c, e) && CleanNewest(files)
    ensures var t := AppendText(files, newDay, Line(c, e));
            Replay(c, t) == Replay(c, files) + [e] && CleanNewest(t)
  {
    if newDay || files == [] {
      RowOfLine(c, "", e);
      assert "" + Line(c, e) == Line(c, e);
      ReplaySplit(c, files, Line(c, e));
    } else {
      var init, newest := files[..|files| - 1], files[|files| - 1];
      assert files == init + [newest];
      RowOfLine(c, newest, e);
      ReplaySplit(c, init, newest);
      ReplaySplit(c, init, newest + Line(c, e));
    }
  }

  lemma AppendedTear(c: Codec, files: seq<string>, newDay: bool, fragment: string)
    requires '\n' !in fragment
    ensures Replay(c, AppendText(files, newDay, fragment)) == Replay(c, files)
  {
    if newDay || files == [] {
      AppendedFragment("", fragment);
      assert "" + fragment == fragment;
      ReplaySplit(c, files, fragment);
    } else {
      var init, newest := files[..|files| - 1], files[|files| - 1];
      assert files == init + [newest];
      AppendedFragment(newest, fragment);
      ReplaySplit(c, init, newest);
      ReplaySplit(c, init, newest + fragment);
    }
  }

  lemma HistoryGrows(landed: seq<Envelope>, resolved: seq<Envelope>, e: Envelope)
    requires History(landed, resolved) && LastSeq(landed) < e.seqNo
    ensures History(landed + [e], resolved) && History(landed + [e], resolved + [e])
    ensures LastSeq(landed + [e]) == e.seqNo
  {
    assert forall x :: x in landed + [e] <==> x in landed || x == e;
    assert forall x :: x in resolved + [e] <==> x in resolved || x == e;
  }

  lemma EmitKeepsInv(c: Codec, w: World, body: string, newDay: bool)
    requires Inv(c, w) && NewestHoldsRow(c, w)
    ensures Inv(c, Step(c, w, Emit(body, newDay)))
  {
    var files, e := Ready(c, w.store).files, NextEnvelope(c, w.store, body);
    var t := Step(c, w, Emit(body, newDay));
    assert t.store.files == AppendText(files, newDay, Line(c, e));
    assert Replay(c, t.store.files) == t.landed && CleanNewest(t.store.files) && LastSeq(w.landed) < e.seqNo by {
      ReadyKeepsRows(c, w);
      assert FaithfulTo(c, e);
      AppendedRow(c, files, newDay, e);
    }
    HistoryGrows(w.landed, w.resolved, e);
  }

  /** What of a line a crash leaves behind: all of it, or a fragment without a newline. */
  lemma WrittenPart(c: Codec, e: Envelope, k: nat)
    requires FaithfulTo(c, e)
    ensures k >= |Line(c, e)| ==> Take(Line(c, e), k) == Line(c, e)
    ensures k < |Line(c, e)| ==> '\n' !in Take(Line(c, e), k)
  {
    if k < |Line(c, e)| {
      assert Take(Line(c, e), k) == c.encode(e)[..k];
    }
  }

  lemma LandedCrash(c: Codec, w: World, body: string, newDay: bool, k: nat)
    requires Inv(c, w) && NewestHoldsRow(c, w) && k >= |Line(c, NextEnvelope(c, w.store, body))|
    ensures Inv(c, Step(c, w, CrashInEmit(body, newDay, k)))
  {
    var files, e := Ready(c, w.store).files, NextEnvelope(c, w.store, body);
    var t := Step(c, w, CrashInEmit(body, newDay, k));
    assert Take(Line(c, e), k) == Line(c, e);
    assert t == World(Store(AppendText(files, newDay, Line(c, e)), None), w.landed + [e], w.resolved);
    assert Replay(c, t.store.files) == t.landed && LastSeq(w.landed) < e.seqNo by {
      ReadyKeepsRows(c, w);
      assert FaithfulTo(c, e);
      AppendedRow(c, files, newDay, e);
    }
    HistoryGrows(w.landed, w.resolved, e);
  }

  lemma TornCrash(c: Codec, w: World, body: string, newDay: bool, k: nat)
    requires Inv(c, w) && NewestHoldsRow(c, w) && k < |Line(c, NextEnvelope(c, w.store, body))|
    ensures Inv(c, Step(c, w, CrashInEmit(body, newDay, k)))
  {
    var files, e := Ready(c, w.store).files, NextEnvelope(c, w.store, body);
    var t := Step(c, w, CrashInEmit(body, newDay, k));
    var part := Take(Line(c, e), k);
    assert t == World(Store(AppendText(files, newDay, part), None), w.landed, w.resolved);
    assert Replay(c, t.store.files) == w.landed by {
      ReadyKeepsRows(c, w);
      assert FaithfulTo(c, e);
      WrittenPart(c, e, k);
      AppendedTear(c, files, newDay, part);
    }
  }

  lemma StepKeepsInv(c: Codec, w: World, ev: Event)
    requires Inv(c, w) && (!ev.Restart? ==> NewestHoldsRow(c, w))
    ensures Inv(c, Step(c, w, ev))
  {
    match ev {
      case Emit(body, newDay) => EmitKeepsInv(c, w, body, newDay);
      case CrashInEmit(body, newDay, k) =>
        if k >= |Line(c, NextEnvelope(c, w.store, body))| {
          LandedCrash(c, w, body, newDay, k);
        } else {
          TornCrash(c, w, body, newDay, k);
        }
      case EmitFailed(_) => ReadyKeepsRows(c, w);
      case Restart =>
    }
  }

  /**
   * Over any run of emits, failed emits, appends torn at any character by a crash, and restarts,
   * in which the newest file holds a row whenever the log is reopened: replay yields what landed
   * in strictly rising sequence, with every resolved emit in it, and no row merged or lost.
   */
  lemma {:induction false} RunDelivers(c: Codec, w: World, run: seq<Event>)
    requires Inv(c, w) && GoodRun(c, w, run)
    ensures Inv(c, After(c, w, run)) && Delivered(c, After(c, w, run))
    decreases |run|
  {
    if run != [] {
      StepKeepsInv(c, w, run[0]);
      RunDelivers(c, Step(c, w, run[0]), run[1..]);
    }
  }

  /** An increasing list holds each of its elements once. */
  lemma OccursOnce(e: Envelope, rows: seq<Envelope>)
    requires Increasing(rows) && e in rows
    ensures exists i :: 0 <= i < |rows| && rows[i] == e && forall j | 0 <= j < |rows| && j != i :: rows[j].seqNo != e.seqNo
  {
    var i :| 0 <= i < |rows| && rows[i] == e;
    forall j | 0 <= j < |rows| && j != i ensures rows[j].seqNo != e.seqNo {
      if j < i { assert rows[j].seqNo < rows[i].seqNo; } else { assert rows[i].seqNo < rows[j].seqNo; }
    }
  }

  /** From an empty log: each resolved emit is replayed exactly once, and nothing else carries its sequence number. */
  lemma ResolvedExactlyOnce(c: Codec, run: seq<Event>, e: Envelope)
    requires Faithful(c) && GoodRun(c, EMPTY_LOG, run) && e in After(c, EMPTY_LOG, run).resolved
    ensures var rows := Replay(c, After(c, EMPTY_LOG, run).store.files);
            && Increasing(rows)
            && exists i :: 0 <= i < |rows| && rows[i] == e && forall j | 0 <= j < |rows| && j != i :: rows[j].seqNo != e.seqNo
  {
    RunDelivers(c, EMPTY_LOG, run);
    var w := After(c, EMPTY_LOG, run);
    assert Occurs(e, w.landed);
    OccursOnce(e, w.landed);
  }

  // ---------------------------------------------------------------------------
  // Bodies and numbers
  // ---------------------------------------------------------------------------

  /** What the emits of a run that resolve were given, in order. */
  function Bodies(run: seq<Event>): seq<string>
    decreases |run|
  {
    if run == [] then [] else (if run[0].Emit? then [run[0].body] else []) + Bodies(run[1..])
  }

  predicate BodiesAre(rows: seq<Envelope>, bodies: seq<string>) {
    |rows| == |bodies| && forall i | 0 <= i < |rows| :: rows[i].body == bodies[i]
  }

  lemma OneResolved(c: Codec, w: World, ev: Event, before: seq<string>)
    requires BodiesAre(w.resolved, before)
    ensures BodiesAre(Step(c, w, ev).resolved, before + (if ev.Emit? then [ev.body] else []))
  {
  }

  lemma SplitBodies(run: seq<Event>, before: seq<string>)
    requires run != []
    ensures before + (if run[0].Emit? then [run[0].body] else []) + Bodies(run[1..]) == before + Bodies(run)
  {
  }

  /** Over every run the resolved emits carry the bodies they were given, in order. */
  lemma {:induction false} ResolvedBodies(c: Codec, w: World, run: seq<Event>, before: seq<string>)
    requires BodiesAre(w.resolved, before)
    ensures BodiesAre(After(c, w, run).resolved, before + Bodies(run))
    decreases |run|
  {
    if run == [] {
      assert before + [] == before;
    } else {
      var now := before + (if run[0].Emit? then [run[0].body] else []);
      OneResolved(c, w, run[0], before);
      ResolvedBodies(c, Step(c, w, run[0]), run[1..], now);
      SplitBodies(run, before);
    }
  }

  /** Numbered from 1 without a gap, and the process, if it knows, goes on with the next. */
  ghost predicate Gapless(w: World) {
    && w.resolved == w.landed
    && (forall i | 0 <= i < |w.landed| :: w.landed[i].seqNo == i + 1)
    && (w.store.nextSeq.Some? ==> w.store.nextSeq.value == |w.landed| + 1)
  }

  lemma GaplessLast(landed: seq<Envelope>)
    requires forall i | 0 <= i < |landed| :: landed[i].seqNo == i + 1
    ensures LastSeq(landed) == |landed|
  {
  }

  lemma NextWhenReopened(c: Codec, s: Store, landed: seq<Envelope>, init: seq<string>, newest: string)
    requires s.nextSeq.None? && s.files == init + [newest] && Replay(c, s.files) == landed && LastSeq(landed) == |landed|
    requires landed == [] || Rows(c, newest) != []
    ensures Ready(c, s).nextSeq == Some(|landed| + 1)
  {
    RecoversLast(c, init, newest);
    ReadyFiles(c, s, init, newest);
  }

  lemma NextWhenNew(c: Codec, s: Store, landed: seq<Envelope>)
    requires s.nextSeq.None? && s.files == [] && Replay(c, s.files) == landed
    ensures Ready(c, s).nextSeq == Some(|landed| + 1)
  {
    NothingReplayed(c);
    ReadyFirst(c, s);
  }

  lemma NextNumber(c: Codec, s: Store, landed: seq<Envelope>)
    requires Replay(c, s.files) == landed && LastSeq(landed) == |landed|
    requires s.nextSeq.Some? ==> s.nextSeq.value == |landed| + 1
    requires s.nextSeq.None? ==> landed == [] || (s.files != [] && Rows(c, s.files[|s.files| - 1]) != [])
    ensures Ready(c, s).nextSeq == Some(|landed| + 1)
  {
    if s.nextSeq.None? && s.files == [] {
      NextWhenNew(c, s, landed);
    } else if s.nextSeq.None? {
      var init, newest := s.files[..|s.files| - 1], s.files[|s.files| - 1];
      assert s.files == init + [newest];
      NextWhenReopened(c, s, landed, init, newest);
    }
  }

  lemma EmitGapless(c: Codec, w: World, body: string, newDay: bool)
    requires Inv(c, w) && Gapless(w) && NewestHoldsRow(c, w)
    ensures Gapless(Step(c, w, Emit(body, newDay)))
  {
    GaplessLast(w.landed);
    NextNumber(c, w.store, w.landed);
  }

  lemma StepGapless(c: Codec, w: World, ev: Event)
    requires Inv(c, w) && Gapless(w) && (ev.Restart? || (ev.Emit? && NewestHoldsRow(c, w)))
    ensures Inv(c, Step(c, w, ev)) && Gapless(Step(c, w, ev))
  {
    StepKeepsInv(c, w, ev);
    if ev.Emit? { EmitGapless(c, w, ev.body, ev.newDay); }
  }

  lemma EmptyGapless(c: Codec)
    requires Faithful(c)
    ensures Inv(c, EMPTY_LOG) && Gapless(EMPTY_LOG)
  {
    NothingReplayed(c);
  }

  predicate NothingFails(run: seq<Event>) {
    forall ev | ev in run :: ev.Emit? || ev.Restart?
  }

  lemma {:induction false} RunGapless(c: Codec, w: World, run: seq<Event>)
    requires Inv(c, w) && Gapless(w) && GoodRun(c, w, run) && NothingFails(run)
    ensures Inv(c, After(c, w, run)) && Gapless(After(c, w, run))
    decreases |run|
  {
    if run != [] {
      assert run[0] in run;
      StepGapless(c, w, run[0]);
      RunGapless(c, Step(c, w, run[0]), run[1..]);
    }
  }

  /** When nothing fails, restarts or not, replay yields the emitted bodies in order, numbered 1, 2, 3 and so on. */
  lemma EmitsAreNumbered(c: Codec, run: seq<Event>)
    requires Faithful(c) && GoodRun(c, EMPTY_LOG, run) && NothingFails(run)
    ensures var rows := Replay(c, After(c, EMPTY_LOG, run).store.files);
            BodiesAre(rows, Bodies(run)) && forall i | 0 <= i < |rows| :: rows[i].seqNo == i + 1
  {
    EmptyGapless(c);
    RunGapless(c, EMPTY_LOG, run);
    ResolvedBodies(c, EMPTY_LOG, run, []);
    assert [] + Bodies(run) == Bodies(run);
  }

  /**
   * The proviso is exact: the first emit after a restart keeps the sequence rising if and only if
   * the newest file holds a complete row or the log was still empty. A day whose first line was
   * torn starts again at 1.
   */
  lemma ReopenedEmitRisesIffNewestHoldsRow(c: Codec, w: World, body: string, newDay: bool)
    requires Inv(c, w)
    ensures Increasing(Replay(c, Step(c, w, Emit(body, newDay)).store.files)) <==> NewestHoldsRow(c, w)
  {
    var files, e := Ready(c, w.store).files, NextEnvelope(c, w.store, body);
    var rows := w.landed + [e];
    assert Replay(c, Step(c, w, Emit(body, newDay)).store.files) == rows by {
      ReadyKeepsRows(c, w);
      assert FaithfulTo(c, e);
      AppendedRow(c, files, newDay, e);
    }
    assert if NewestHoldsRow(c, w) then LastSeq(w.landed) < e.seqNo else w.landed != [] && e.seqNo == 1 by {
      ReadyKeepsRows(c, w);
    }
    RisesIffAbove(w.landed, w.resolved, e);
  }

  lemma RisesIffAbove(landed: seq<Envelope>, resolved: seq<Envelope>, e: Envelope)
    requires History(landed, resolved) && (LastSeq(landed) < e.seqNo || (landed != [] && e.seqNo == 1))
    ensures Increasing(landed + [e]) <==> LastSeq(landed) < e.seqNo
  {
    if LastSeq(landed) < e.seqNo {
      HistoryGrows(landed, resolved, e);
    } else {
      var rows, n := landed + [e], |landed|;
      assert landed[n - 1] in landed;
      assert rows[n - 1] == landed[n - 1] && rows[n] == e;
    }
  }

  function RowsOfLine(c: Codec, line: string): seq<Envelope> {
    match c.parse(line)
    case Some(e) => [e]
    case None => []
  }

  /** On a file that ends cleanly a line adds the row it parses to, if it parses. */
  lemma LineAddsItsRow(c: Codec, newest: string, line: string)
    requires Scan(newest).rest == "" && '\n' !in line && line != ""
    ensures Rows(c, newest + line + "\n") == Rows(c, newest) + RowsOfLine(c, line)
  {
    AppendedLine(newest, line);
    assert "" + line == line && [line][..0] == [];
    assert ParseAll(c.parse, [line]) == RowsOfLine(c, line);
    ParseAppend(c.parse, CompleteLines(newest), [line]);
  }

  /** The retry's line continues the fragment's. */
  lemma RetryOnOneLine(c: Codec, init: seq<string>, newest: string, fragment: string, e: Envelope)
    requires Scan(newest).rest == "" && FaithfulTo(c, e) && '\n' !in fragment
    ensures Replay(c, AppendText(init + [newest + fragment], false, Line(c, e))) ==
            Replay(c, init) + Rows(c, newest) + RowsOfLine(c, fragment + c.encode(e))
  {
    var line := fragment + c.encode(e);
    assert AppendText(init + [newest + fragment], false, Line(c, e)) == init + [newest + line + "\n"] by {
      assert newest + fragment + Line(c, e) == newest + line + "\n";
    }
    LineAddsItsRow(c, newest, line);
    ReplaySplit(c, init, newest + line + "\n");
  }

  lemma RetryRows(c: Codec, files: seq<string>, newDay: bool, fragment: string, e: Envelope)
    requires CleanNewest(files) && FaithfulTo(c, e) && '\n' !in fragment
    ensures Replay(c, AppendText(AppendText(files, newDay, fragment), false, Line(c, e))) ==
            Replay(c, files) + RowsOfLine(c, fragment + c.encode(e))
  {
    if newDay || files == [] {
      assert Rows(c, "") == [] && "" + fragment == fragment;
      RetryOnOneLine(c, files, "", fragment, e);
      assert Replay(c, files) + [] == Replay(c, files);
    } else {
      var init, newest := files[..|files| - 1], files[|files| - 1];
      assert files == init + [newest];
      ReplaySplit(c, init, newest);
      RetryOnOneLine(c, init, newest, fragment, e);
    }
  }

  lemma RetryOnANewDay(c: Codec, files: seq<string>, newDay: bool, fragment: string, e: Envelope)
    requires FaithfulTo(c, e) && '\n' !in fragment
    ensures Replay(c, AppendText(AppendText(files, newDay, fragment), true, Line(c, e))) == Replay(c, files) + [e]
  {
    AppendedTear(c, files, newDay, fragment);
    RowOfLine(c, "", e);
    assert "" + Line(c, e) == Line(c, e);
    ReplaySplit(c, AppendText(files, newDay, fragment), Line(c, e));
  }

  /** What an append leaves that failed part-way in a living process: a fragment, and a number that is spent. */
  function PartlyWritten(s: Store, fragment: string, newDay: bool): Store
    requires s.nextSeq.Some?
  {
    Store(AppendText(s.files, newDay, fragment), Some(s.nextSeq.value + 1))
  }

  /**
   * The repair only runs when the log is opened. After an append that failed part-way in a living
   * process the retry resolves, and its row is replayed if and only if a new day begins or the
   * fragment and the retry's line, read as one line, parse to the retry's envelope.
   */
  lemma RetryIsReplayedIff(c: Codec, w: World, fragment: string, tornOnNewDay: bool, body: string, newDay: bool)
    requires Inv(c, w) && w.store.nextSeq.Some? && '\n' !in fragment
    ensures var failed := PartlyWritten(w.store, fragment, tornOnNewDay);
            var e := NextEnvelope(c, failed, body);
            var rows := Replay(c, EmitInto(c, failed, body, newDay).files);
            && rows == w.landed + (if newDay then [e] else RowsOfLine(c, fragment + c.encode(e)))
            && (Occurs(e, rows) <==> newDay || c.parse(fragment + c.encode(e)) == Some(e))
  {
    var failed := PartlyWritten(w.store, fragment, tornOnNewDay);
    var e := NextEnvelope(c, failed, body);
    assert FaithfulTo(c, e);
    assert !Occurs(e, w.landed) by { NotYetLanded(w.landed, e); }
    if newDay {
      RetryOnANewDay(c, w.store.files, tornOnNewDay, fragment, e);
    } else {
      RetryRows(c, w.store.files, tornOnNewDay, fragment, e);
    }
  }

  lemma NotYetLanded(landed: seq<Envelope>, e: Envelope)
    requires Increasing(landed) && LastSeq(landed) < e.seqNo
    ensures !Occurs(e, landed)
  {
    forall i | 0 <= i < |landed| ensures landed[i].seqNo < e.seqNo {
      assert i < |landed| - 1 ==> landed[i].seqNo < landed[|landed| - 1].seqNo;
    }
  }
}
