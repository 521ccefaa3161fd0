/**
 * The incremental ledger against the whole history: a state machine over the ledger's
 * operations, crashes and restarts, and the exact condition under which every reconcile
 * returns what a pure read of all rows returns.
 */
module LedgerRuns {
  import opened Orders
  import opened LedgerRows
  import opened LedgerFold

  // ---------------------------------------------------------------------------
  // States and operations
  // ---------------------------------------------------------------------------

  /** What is durable (rows, snapshot) and what lives in the process (the fold). */
  datatype Ledger = Ledger(log: seq<Row>, snapshot: Option<FoldState>, fold: Option<FoldState>)

  const FRESH := Ledger([], None, None)

  datatype Op =
    | Append(row: Row)                 // recordInbound, recordDecision, recordOutbound, linkTurn
    | Abandon(abandon: Row)            // abandon: append, then prune
    | Reconcile
    | Mark(updateId: int, level: Escalation)
    | Peek                             // alarmDue and chatMovedOn only load the fold
    | CrashAfterAppend(landed: Row)    // the row is durable, the fold and the snapshot never saw it
    | Restart

  /** loadFold: the snapshot as it is, or a replay of everything. */
  function Load(s: Ledger): FoldState {
    match s.snapshot
    case Some(f) => f
    case None => ConsumeAll(EMPTY, s.log)
  }

  function Ensure(s: Ledger): FoldState {
    match s.fold
    case Some(f) => f
    case None => Load(s)
  }

  function Tail(f: FoldState, log: seq<Row>): FoldState {
    ConsumeAll(f, Drop(log, f.consumed))
  }

  /** The fold a reconcile reads its verdicts from. */
  function CatchUp(s: Ledger): FoldState {
    Tail(Ensure(s), s.log)
  }

  function MarkIn(f: FoldState, u: int, level: Escalation): FoldState {
    if u in f.arrivals then f.(arrivals := f.arrivals[u := f.arrivals[u].(lastEscalation := Some(level))]) else f
  }

  function Keep(log: seq<Row>, f: FoldState): Ledger {
    Ledger(log, Some(f), Some(f))
  }

  function AppendRow(s: Ledger, row: Row): Ledger {
    match s.fold
    case None => s.(log := s.log + [row])
    case Some(f) => Keep(s.log + [row], Consume(f, row))
  }

  function Step(s: Ledger, op: Op): Ledger {
    match op
    case Append(row) => AppendRow(s, row)
    case Abandon(row) =>
      var t := AppendRow(s, row);
      if t.fold.Some? then Keep(t.log, Prune(t.fold.value)) else t
    case Reconcile => Keep(s.log, Prune(CatchUp(s)))
    case Mark(u, level) =>
      if s.fold.Some? && u in s.fold.value.arrivals then Keep(s.log, MarkIn(s.fold.value, u, level)) else s
    case Peek => s.(fold := Some(Ensure(s)))
    case CrashAfterAppend(row) => s.(log := s.log + [row], fold := None)
    case Restart => s.(fold := None)
  }

  ghost function Reported(s: Ledger, now: int, windowMs: int): seq<Discrepancy> {
    Verdicts(CatchUp(s).arrivals, now, windowMs)
  }

  /** reconcileLedgerRows: the fold of every row, never pruned. */
  function Whole(log: seq<Row>): FoldState {
    ConsumeAll(EMPTY, log)
  }

  ghost function WholeHistory(log: seq<Row>, now: int, windowMs: int): seq<Discrepancy> {
    Verdicts(Whole(log).arrivals, now, windowMs)
  }

  // ---------------------------------------------------------------------------
  // Which rows reopen what pruning dropped
  // ---------------------------------------------------------------------------

  /** A row that changes the outcome of a pruned arrival: a redelivery, or a new decision that is not restraint. */
  predicate Reopens(u: int, a: Arrival, row: Row) {
    match row
    case Inbound(_, m) => m.updateId == u
    case Decision(_, t, plan, _, dueBy, decider) =>
      a.turnId == Some(t) && !Terminal(a) && !Restraint(TurnDecision(plan, dueBy, decider))
    case _ => false
  }

  ghost predicate Disturbs(whole: FoldState, kept: FoldState, row: Row) {
    exists u :: u in whole.arrivals && u !in kept.arrivals && Reopens(u, whole.arrivals[u], row)
  }

  function AppendedBy(op: Op): Option<Row> {
    match op
    case Append(r) => Some(r)
    case Abandon(r) => Some(r)
    case CrashAfterAppend(r) => Some(r)
    case _ => None
  }

  /** The live fold has rows of the log still to read. */
  predicate Lags(s: Ledger) {
    s.fold.Some? && s.fold.value.consumed < |s.log|
  }

  /** What the callers of the ledger keep to: abandon rows come from abandon, and nothing is appended while the fold lags. */
  predicate Legal(s: Ledger, op: Op) {
    && (op.Abandon? ==> op.abandon.Abandoned?)
    && (op.Append? || op.Abandon? ==> !Lags(s))
  }

  ghost predicate LegalRun(s: Ledger, run: seq<Op>)
    decreases |run|
  {
    run == [] || (Legal(s, run[0]) && LegalRun(Step(s, run[0]), run[1..]))
  }

  ghost predicate Undisturbed(s: Ledger, run: seq<Op>)
    decreases |run|
  {
    run == [] ||
    (&& (AppendedBy(run[0]).Some? ==> !Disturbs(Whole(s.log), CatchUp(s), AppendedBy(run[0]).value))
     && Undisturbed(Step(s, run[0]), run[1..]))
  }

  ghost predicate Agrees(s: Ledger, windowMs: int) {
    forall now :: Reported(s, now, windowMs) == WholeHistory(s.log, now, windowMs)
  }

  ghost predicate AlwaysAgrees(s: Ledger, run: seq<Op>, windowMs: int)
    decreases |run|
  {
    Agrees(s, windowMs) && (run == [] || AlwaysAgrees(Step(s, run[0]), run[1..], windowMs))
  }

  // ---------------------------------------------------------------------------
  // The relation between the whole fold and a pruned one
  // ---------------------------------------------------------------------------

  function Facts(a: Arrival): Arrival {
    a.(lastEscalation := None)
  }

  ghost predicate Grounded(f: FoldState) {
    forall u | u in f.arrivals ::
      var a := f.arrivals[u];
      a.msg.updateId == u && a.count >= 1 && (a.turnReplied || a.decision.Some? ==> a.turnId.Some?)
  }

  ghost predicate Tracks(whole: FoldState, kept: FoldState) {
    && (forall u | u in kept.arrivals :: u in whole.arrivals && Facts(whole.arrivals[u]) == Facts(kept.arrivals[u]))
    && (forall u | u in whole.arrivals && u !in kept.arrivals :: Done(whole.arrivals[u]))
  }

  lemma ArrivalsOf(f: FoldState, row: Row, u: int)
    ensures u in Consume(f, row).arrivals <==> u in f.arrivals || (row.Inbound? && row.msg.updateId == u)
    ensures u in Consume(f, row).arrivals ==>
              Consume(f, row).arrivals[u] ==
              if u in f.arrivals then Touch(u, f.arrivals[u], row) else FirstArrival(row.ts, row.msg)
  {
  }

  lemma GroundedStep(f: FoldState, row: Row)
    requires Grounded(f)
    ensures Grounded(Consume(f, row))
  {
    forall u | u in Consume(f, row).arrivals
      ensures var a := Consume(f, row).arrivals[u];
              a.msg.updateId == u && a.count >= 1 && (a.turnReplied || a.decision.Some? ==> a.turnId.Some?)
    {
      ArrivalsOf(f, row, u);
    }
  }

  lemma {:induction false} GroundedWhole(log: seq<Row>)
    ensures Grounded(Whole(log))
    decreases |log|
  {
    if log != [] {
      GroundedWhole(log[..|log| - 1]);
      GroundedStep(Whole(log[..|log| - 1]), log[|log| - 1]);
    }
  }

  lemma TracksTouch(whole: FoldState, kept: FoldState, row: Row, u: int)
    requires Grounded(whole) && Tracks(whole, kept) && !Disturbs(whole, kept, row) && u in whole.arrivals
    ensures var a := Touch(u, whole.arrivals[u], row);
            if u in kept.arrivals then Facts(a) == Facts(Touch(u, kept.arrivals[u], row)) else Done(a)
  {
    if u in kept.arrivals {
      assert Facts(whole.arrivals[u]) == Facts(kept.arrivals[u]);
    } else {
      assert !Reopens(u, whole.arrivals[u], row);
    }
  }

  lemma TracksStep(whole: FoldState, kept: FoldState, row: Row)
    requires Grounded(whole) && Tracks(whole, kept) && !Disturbs(whole, kept, row)
    ensures Tracks(Consume(whole, row), Consume(kept, row))
  {
    var w, k := Consume(whole, row).arrivals, Consume(kept, row).arrivals;
    forall u | u in w
      ensures if u in k then Facts(w[u]) == Facts(k[u]) else Done(w[u])
    {
      ArrivalsOf(whole, row, u);
      ArrivalsOf(kept, row, u);
      if u in whole.arrivals {
        TracksTouch(whole, kept, row, u);
        if u !in kept.arrivals { assert !Reopens(u, whole.arrivals[u], row); }
      }
    }
    forall u | u in k ensures u in w {
      ArrivalsOf(whole, row, u);
      ArrivalsOf(kept, row, u);
    }
  }

  lemma TracksPrune(whole: FoldState, kept: FoldState)
    requires Tracks(whole, kept)
    ensures Tracks(whole, Prune(kept))
  {
  }

  // ---------------------------------------------------------------------------
  // Tracking folds give the same verdicts
  // ---------------------------------------------------------------------------

  function In(m: map<int, Arrival>): Key -> bool {
    (k: Key) => k.id in m
  }

  lemma OrderedIsKeys(m: map<int, Arrival>, k: Key)
    ensures multiset(Ordered(m))[k] == if k.id in m && m[k.id].ts == k.ts then 1 else 0
    ensures Sorted(KeyLeq, Ordered(m))
  {
    KeyOrder();
    SortSorted(KeyLeq, Listing(Keys(m)));
    assert multiset(Ordered(m))[k] == multiset(Keys(m))[k];
    assert k in Keys(m) <==> k.id in m && m[k.id].ts == k.ts;
  }

  lemma KeptKey(whole: FoldState, kept: FoldState, k: Key)
    requires Tracks(whole, kept)
    ensures multiset(Filter(In(kept.arrivals), Ordered(whole.arrivals)))[k] == multiset(Ordered(kept.arrivals))[k]
  {
    FilterMultiset(In(kept.arrivals), Ordered(whole.arrivals));
    OrderedIsKeys(whole.arrivals, k);
    OrderedIsKeys(kept.arrivals, k);
    if k.id in kept.arrivals {
      assert Facts(whole.arrivals[k.id]) == Facts(kept.arrivals[k.id]);
    }
  }

  lemma OrderedKept(whole: FoldState, kept: FoldState)
    requires Tracks(whole, kept)
    ensures Filter(In(kept.arrivals), Ordered(whole.arrivals)) == Ordered(kept.arrivals)
  {
    var p, ks, js := In(kept.arrivals), Ordered(whole.arrivals), Ordered(kept.arrivals);
    forall k ensures multiset(Filter(p, ks))[k] == multiset(js)[k] {
      KeptKey(whole, kept, k);
    }
    OrderedIsKeys(whole.arrivals, Key(0, 0));
    OrderedIsKeys(kept.arrivals, Key(0, 0));
    FilterSorted(KeyLeq, p, ks);
    KeyOrder();
    SortedUnique(KeyLeq, Filter(p, ks), js);
  }

  lemma ReportStep(whole: FoldState, kept: FoldState, u: int, now: int, windowMs: int)
    requires Grounded(whole) && Tracks(whole, kept) && u in whole.arrivals
    ensures var a := whole.arrivals[u];
            if u in kept.arrivals then
              LostAt(a, now, windowMs) == LostAt(kept.arrivals[u], now, windowMs) &&
              DuplicateAt(u, a) == DuplicateAt(u, kept.arrivals[u])
            else LostAt(a, now, windowMs) == [] && DuplicateAt(u, a) == []
  {
    if u in kept.arrivals {
      assert Facts(whole.arrivals[u]) == Facts(kept.arrivals[u]);
    } else {
      assert Done(whole.arrivals[u]);
    }
  }

  lemma ReportSnoc(m: map<int, Arrival>, js: seq<Key>, k: Key, now: int, windowMs: int)
    requires (forall j | j in js :: j.id in m) && k.id in m
    ensures LostIn(m, js + [k], now, windowMs) == LostIn(m, js, now, windowMs) + LostAt(m[k.id], now, windowMs)
    ensures DuplicatesIn(m, js + [k]) == DuplicatesIn(m, js) + DuplicateAt(k.id, m[k.id])
  {
    assert (js + [k])[..|js|] == js;
  }

  lemma {:induction false} SkipPruned(whole: FoldState, kept: FoldState, ks: seq<Key>, now: int, windowMs: int)
    requires Grounded(whole) && Tracks(whole, kept)
    requires forall k | k in ks :: k.id in whole.arrivals
    ensures LostIn(whole.arrivals, ks, now, windowMs) ==
            LostIn(kept.arrivals, Filter(In(kept.arrivals), ks), now, windowMs)
    ensures DuplicatesIn(whole.arrivals, ks) == DuplicatesIn(kept.arrivals, Filter(In(kept.arrivals), ks))
    decreases |ks|
  {
    if ks != [] {
      var p := In(kept.arrivals);
      var init, k := ks[..|ks| - 1], ks[|ks| - 1];
      var js := Filter(p, init);
      assert init + [k] == ks;
      FilterAppend(p, init, [k]);
      assert Filter(p, ks) == if p(k) then js + [k] else js;
      SkipPruned(whole, kept, init, now, windowMs);
      ReportSnoc(whole.arrivals, init, k, now, windowMs);
      ReportStep(whole, kept, k.id, now, windowMs);
      if p(k) {
        ReportSnoc(kept.arrivals, js, k, now, windowMs);
      }
    }
  }

  lemma TrackingVerdicts(whole: FoldState, kept: FoldState, now: int, windowMs: int)
    requires Grounded(whole) && Tracks(whole, kept)
    ensures Verdicts(kept.arrivals, now, windowMs) == Verdicts(whole.arrivals, now, windowMs)
  {
    OrderedElements(whole.arrivals);
    OrderedKept(whole, kept);
    SkipPruned(whole, kept, Ordered(whole.arrivals), now, windowMs);
  }

  // ---------------------------------------------------------------------------
  // One step
  // ---------------------------------------------------------------------------

  lemma TailSnoc(f: FoldState, log: seq<Row>, row: Row)
    requires f.consumed <= |log|
    ensures Tail(f, log + [row]) == Consume(Tail(f, log), row)
  {
    assert Drop(log + [row], f.consumed) == Drop(log, f.consumed) + [row];
    ConsumeAllAppend(f, Drop(log, f.consumed), [row]);
    var g := ConsumeAll(f, Drop(log, f.consumed));
    assert [row][..0] == [];
    assert ConsumeAll(g, [row]) == Consume(ConsumeAll(g, []), row);
  }

  lemma WholeSnoc(log: seq<Row>, row: Row)
    ensures Whole(log + [row]) == Consume(Whole(log), row)
  {
    assert (log + [row])[..|log|] == log;
  }

  /** The live fold is the durable one, and neither counts rows that do not exist. */
  ghost predicate Steady(s: Ledger) {
    Load(s).consumed <= |s.log| && (s.fold.Some? ==> s.fold.value == Load(s))
  }

  lemma StepSteady(s: Ledger, op: Op)
    requires Steady(s)
    ensures Steady(Step(s, op))
  {
  }

  lemma Caught(s: Ledger)
    requires Steady(s)
    ensures CatchUp(s) == Tail(Load(s), s.log)
    ensures CatchUp(s).consumed == |s.log|
    ensures s.fold.Some? && !Lags(s) ==> CatchUp(s) == s.fold.value
  {
  }

  lemma AppendCaught(s: Ledger, row: Row)
    requires Steady(s) && !Lags(s)
    ensures Steady(AppendRow(s, row)) && !Lags(AppendRow(s, row))
    ensures CatchUp(AppendRow(s, row)) == Consume(CatchUp(s), row)
  {
    Caught(s);
    var t := AppendRow(s, row);
    if s.fold.None? {
      if s.snapshot.None? {
        WholeSnoc(s.log, row);
      } else {
        TailSnoc(s.snapshot.value, s.log, row);
      }
    } else {
      Caught(t);
    }
  }

  lemma AbandonCaught(s: Ledger, row: Row)
    requires Steady(s) && !Lags(s)
    ensures CatchUp(Step(s, Abandon(row))) ==
            if s.fold.Some? then Prune(Consume(CatchUp(s), row)) else Consume(CatchUp(s), row)
  {
    AppendCaught(s, row);
    Caught(AppendRow(s, row));
    if s.fold.Some? {
      Caught(Step(s, Abandon(row)));
    }
  }

  /** A mark on an arrival the fold has commutes with the rows it has still to read. */
  lemma {:induction false} MarkCommutes(f: FoldState, rows: seq<Row>, u: int, level: Escalation)
    requires u in f.arrivals
    ensures u in ConsumeAll(f, rows).arrivals
    ensures ConsumeAll(MarkIn(f, u, level), rows) == MarkIn(ConsumeAll(f, rows), u, level)
    decreases |rows|
  {
    if rows != [] {
      var init, last := rows[..|rows| - 1], rows[|rows| - 1];
      MarkCommutes(f, init, u, level);
      var g := ConsumeAll(f, init);
      ConsumeLast(f, rows);
      ConsumeLast(MarkIn(f, u, level), rows);
      ArrivalsOf(g, last, u);
      MarkCommutesOnce(g, last, u, level);
    }
  }

  lemma ConsumeLast(f: FoldState, rows: seq<Row>)
    requires rows != []
    ensures ConsumeAll(f, rows) == Consume(ConsumeAll(f, rows[..|rows| - 1]), rows[|rows| - 1])
  {
  }

  lemma MarkCommutesOnce(f: FoldState, row: Row, u: int, level: Escalation)
    requires u in f.arrivals
    ensures Consume(MarkIn(f, u, level), row) == MarkIn(Consume(f, row), u, level)
  {
    MarkedArrivals(f, row, u, level);
    MarkedRest(f, row, u, level);
    var marked, plain := Consume(MarkIn(f, u, level), row), Consume(f, row);
    assert marked == plain.(arrivals := marked.arrivals);
  }

  lemma MarkedRest(f: FoldState, row: Row, u: int, level: Escalation)
    requires u in f.arrivals
    ensures var marked, plain := Consume(MarkIn(f, u, level), row), Consume(f, row);
            u in plain.arrivals && marked == plain.(arrivals := marked.arrivals)
  {
    ArrivalsOf(f, row, u);
  }

  lemma MarkedArrivals(f: FoldState, row: Row, u: int, level: Escalation)
    requires u in f.arrivals
    ensures Consume(MarkIn(f, u, level), row).arrivals == MarkIn(Consume(f, row), u, level).arrivals
  {
    ArrivalsOf(f, row, u);
    var a, b := Consume(MarkIn(f, u, level), row).arrivals, MarkIn(Consume(f, row), u, level).arrivals;
    forall v ensures (v in a <==> v in b) && (v in a ==> a[v] == b[v]) {
      ArrivalsOf(f, row, v);
      ArrivalsOf(MarkIn(f, u, level), row, v);
    }
  }

  /** What each operation does to the fold a reconcile would read. */
  function CaughtAfter(s: Ledger, op: Op): FoldState {
    match op
    case Append(row) => Consume(CatchUp(s), row)
    case Abandon(row) => if s.fold.Some? then Prune(Consume(CatchUp(s), row)) else Consume(CatchUp(s), row)
    case CrashAfterAppend(row) => Consume(CatchUp(s), row)
    case Reconcile => Prune(CatchUp(s))
    case Mark(u, level) =>
      if s.fold.Some? && u in s.fold.value.arrivals then MarkIn(CatchUp(s), u, level) else CatchUp(s)
    case _ => CatchUp(s)
  }

  lemma StepCaught(s: Ledger, op: Op)
    requires Steady(s) && Legal(s, op)
    ensures Steady(Step(s, op)) && CatchUp(Step(s, op)) == CaughtAfter(s, op)
  {
    StepSteady(s, op);
    match op {
      case Append(row) => AppendCaught(s, row);
      case Abandon(row) => AbandonCaught(s, row);
      case CrashAfterAppend(row) =>
        Caught(s);
        AppendCaught(s.(fold := None), row);
      case Reconcile => Caught(s); Caught(Step(s, op));
      case Mark(u, level) =>
        if s.fold.Some? && u in s.fold.value.arrivals {
          MarkCommutes(s.fold.value, Drop(s.log, s.fold.value.consumed), u, level);
        }
      case Peek => Caught(s); Caught(Step(s, op));
      case Restart => Caught(s); Caught(Step(s, op));
    }
  }

  lemma {:induction false} LogOf(s: Ledger, op: Op)
    ensures Step(s, op).log == if AppendedBy(op).Some? then s.log + [AppendedBy(op).value] else s.log
  {
  }

  lemma TracksUndisturbed(s: Ledger, op: Op)
    requires Steady(s) && Legal(s, op) && Tracks(Whole(s.log), CatchUp(s))
    requires AppendedBy(op).Some? ==> !Disturbs(Whole(s.log), CatchUp(s), AppendedBy(op).value)
    ensures Tracks(Whole(Step(s, op).log), CatchUp(Step(s, op)))
  {
    StepCaught(s, op);
    LogOf(s, op);
    GroundedWhole(s.log);
    if AppendedBy(op).Some? {
      var row := AppendedBy(op).value;
      WholeSnoc(s.log, row);
      TracksStep(Whole(s.log), CatchUp(s), row);
      TracksPrune(Consume(Whole(s.log), row), Consume(CatchUp(s), row));
    } else {
      TracksPrune(Whole(s.log), CatchUp(s));
    }
  }

  /** A time at which the arrival a row reopened is reported. */
  function LateFor(a: Arrival, row: Row, windowMs: int): int {
    var due := if row.Decision? && row.dueBy.Some? then row.dueBy.value else 0;
    (if due > a.ts + windowMs then due else a.ts + windowMs) + 1
  }

  function Reopening(u: int, a: Arrival, row: Row, windowMs: int): Discrepancy {
    if row.Inbound? then DuplicateInbound(u) else LostReply(a.msg, LateFor(a, row, windowMs) - a.ts, a.turnId)
  }

  lemma ReopenedIsReported(u: int, a: Arrival, row: Row, windowMs: int)
    requires Done(a) && Reopens(u, a, row) && (a.turnReplied || a.decision.Some? ==> a.turnId.Some?)
    ensures var b := Touch(u, a, row);
            var d := Reopening(u, b, row, windowMs);
            d in LostAt(b, LateFor(b, row, windowMs), windowMs) || d in DuplicateAt(u, b)
  {
  }

  lemma OnlyItsOwnReport(u: int, v: int, b: Arrival, row: Row, k: Arrival, now: int, windowMs: int)
    requires k.msg.updateId == v && b.msg.updateId == u && (u == v ==> row.Inbound? && k.count == 1)
    ensures Reopening(u, b, row, windowMs) !in LostAt(k, now, windowMs)
    ensures Reopening(u, b, row, windowMs) !in DuplicateAt(v, k)
  {
  }

  lemma SeparatedBy(m: map<int, Arrival>, k: map<int, Arrival>, u: int, d: Discrepancy, now: int, windowMs: int)
    requires u in m && (d in LostAt(m[u], now, windowMs) || d in DuplicateAt(u, m[u]))
    requires forall v | v in k :: d !in LostAt(k[v], now, windowMs) && d !in DuplicateAt(v, k[v])
    ensures Verdicts(k, now, windowMs) != Verdicts(m, now, windowMs)
  {
    VerdictMembers(m, now, windowMs, d);
    VerdictMembers(k, now, windowMs, d);
  }

  lemma KeptNames(whole: FoldState, kept: FoldState, row: Row, u: int)
    requires Grounded(whole) && Tracks(whole, kept)
    requires u !in kept.arrivals && (row.Inbound? ==> row.msg.updateId == u)
    ensures forall v | v in Consume(kept, row).arrivals ::
      var k := Consume(kept, row).arrivals[v];
      k.msg.updateId == v && (u == v ==> row.Inbound? && k.count == 1)
  {
    forall v | v in kept.arrivals ensures kept.arrivals[v].msg.updateId == v {
      assert Facts(whole.arrivals[v]) == Facts(kept.arrivals[v]);
    }
  }

  /** A disturbing row separates the two readings for good: some reconcile time tells them apart. */
  lemma DisturbedDiffers(whole: FoldState, kept: FoldState, row: Row, windowMs: int) returns (now: int)
    requires Grounded(whole) && Tracks(whole, kept) && Disturbs(whole, kept, row)
    ensures Verdicts(Consume(kept, row).arrivals, now, windowMs) != Verdicts(Consume(whole, row).arrivals, now, windowMs)
  {
    var u :| u in whole.arrivals && u !in kept.arrivals && Reopens(u, whole.arrivals[u], row);
    var m, k := Consume(whole, row).arrivals, Consume(kept, row).arrivals;
    var b := Touch(u, whole.arrivals[u], row);
    now := LateFor(b, row, windowMs);
    ReopenedIsReported(u, whole.arrivals[u], row, windowMs);
    KeptNames(whole, kept, row, u);
    forall v | v in k
      ensures Reopening(u, b, row, windowMs) !in LostAt(k[v], now, windowMs)
      ensures Reopening(u, b, row, windowMs) !in DuplicateAt(v, k[v])
    {
      OnlyItsOwnReport(u, v, b, row, k[v], now, windowMs);
    }
    SeparatedBy(m, k, u, Reopening(u, b, row, windowMs), now, windowMs);
  }

  // ---------------------------------------------------------------------------
  // The theorem
  // ---------------------------------------------------------------------------

  lemma TrackingAgrees(s: Ledger, windowMs: int)
    requires Tracks(Whole(s.log), CatchUp(s))
    ensures Agrees(s, windowMs)
  {
    GroundedWhole(s.log);
    forall now ensures Reported(s, now, windowMs) == WholeHistory(s.log, now, windowMs) {
      TrackingVerdicts(Whole(s.log), CatchUp(s), now, windowMs);
    }
  }

  /** An abandon row disturbs nothing, so nothing is pruned by the step that does. */
  lemma DisturbingAppends(s: Ledger, op: Op)
    requires Legal(s, op) && AppendedBy(op).Some? && Disturbs(Whole(s.log), CatchUp(s), AppendedBy(op).value)
    ensures CaughtAfter(s, op) == Consume(CatchUp(s), AppendedBy(op).value)
  {
  }

  lemma DisturbedDisagrees(s: Ledger, op: Op, windowMs: int)
    requires Steady(s) && Legal(s, op) && Tracks(Whole(s.log), CatchUp(s))
    requires AppendedBy(op).Some? && Disturbs(Whole(s.log), CatchUp(s), AppendedBy(op).value)
    ensures !Agrees(Step(s, op), windowMs)
  {
    var row, t := AppendedBy(op).value, Step(s, op);
    assert CatchUp(t) == Consume(CatchUp(s), row) by {
      StepCaught(s, op);
      DisturbingAppends(s, op);
    }
    assert Whole(t.log) == Consume(Whole(s.log), row) by {
      LogOf(s, op);
      WholeSnoc(s.log, row);
    }
    GroundedWhole(s.log);
    var now := DisturbedDiffers(Whole(s.log), CatchUp(s), row, windowMs);
    assert Reported(t, now, windowMs) != WholeHistory(t.log, now, windowMs);
  }

  /**
   * Over every run of appends, abandons, reconciles, alarm marks, peeks, crashes and restarts in
   * which nothing is appended on a lagging fold, each state reports at every time what the whole
   * history reports, exactly when no appended row redelivers a pruned update or re-decides a
   * pruned restraint silence.
   */
  lemma {:induction false} AgreesIffUndisturbed(s: Ledger, run: seq<Op>, windowMs: int)
    requires Steady(s) && Tracks(Whole(s.log), CatchUp(s)) && LegalRun(s, run)
    ensures AlwaysAgrees(s, run, windowMs) <==> Undisturbed(s, run)
    decreases |run|
  {
    TrackingAgrees(s, windowMs);
    if run != [] {
      var op := run[0];
      StepCaught(s, op);
      if AppendedBy(op).Some? && Disturbs(Whole(s.log), CatchUp(s), AppendedBy(op).value) {
        DisturbedDisagrees(s, op, windowMs);
        assert !AlwaysAgrees(Step(s, op), run[1..], windowMs);
      } else {
        TracksUndisturbed(s, op);
        AgreesIffUndisturbed(Step(s, op), run[1..], windowMs);
      }
    }
  }

  lemma FreshAgreesIffUndisturbed(run: seq<Op>, windowMs: int)
    requires LegalRun(FRESH, run)
    ensures AlwaysAgrees(FRESH, run, windowMs) <==> Undisturbed(FRESH, run)
  {
    AgreesIffUndisturbed(FRESH, run, windowMs);
  }

  // ---------------------------------------------------------------------------
  // A failing input on each side of the hypotheses
  // ---------------------------------------------------------------------------

  function Execute(s: Ledger, run: seq<Op>): Ledger
    decreases |run|
  {
    if run == [] then s else Step(Execute(s, run[..|run| - 1]), run[|run| - 1])
  }

  lemma {:induction false} ExecuteFirst(s: Ledger, run: seq<Op>)
    requires run != []
    ensures Execute(s, run) == Execute(Step(s, run[0]), run[1..])
    decreases |run|
  {
    var init := run[..|run| - 1];
    if |run| == 1 {
      assert init == [] && run[1..] == [];
    } else {
      ExecuteFirst(s, init);
      assert run[1..][..|run| - 2] == init[1..];
    }
  }

  function AnsweredThenRedelivered(m: InboundMsg): seq<Op> {
    [Append(Inbound(0, m)), Append(Link(0, m.updateId, "t")), Append(Outbound(0, "t", 1, "hi")),
     Reconcile, Append(Inbound(0, m))]
  }

  function AnsweredLog(m: InboundMsg): seq<Row> {
    [Inbound(0, m), Link(0, m.updateId, "t"), Outbound(0, "t", 1, "hi")]
  }

  lemma AnsweredStates(m: InboundMsg)
    ensures var s := Execute(FRESH, AnsweredThenRedelivered(m));
            && s.log == AnsweredLog(m) + [Inbound(0, m)]
            && CatchUp(s) == Consume(Prune(Whole(AnsweredLog(m))), Inbound(0, m))
  {
    var run := AnsweredThenRedelivered(m);
    var s1 := Step(FRESH, run[0]);
    var s2 := Step(s1, run[1]);
    var s3 := Step(s2, run[2]);
    var s4 := Step(s3, run[3]);
    assert Execute(FRESH, run[..0]) == FRESH;
    assert run[..1][..0] == run[..0] && run[..2][..1] == run[..1] && run[..3][..2] == run[..2];
    assert run[..4][..3] == run[..3] && run[..5] == run;
    assert Execute(FRESH, run[..1]) == s1;
    assert Execute(FRESH, run[..2]) == s2;
    assert Execute(FRESH, run[..3]) == s3;
    assert Execute(FRESH, run[..4]) == s4;
    assert s3.log == AnsweredLog(m);
    StepCaught(s3, run[3]);
    StepCaught(s4, run[4]);
  }

  lemma SingleArrival(f: FoldState, u: int, a: Arrival, row: Row)
    requires f.arrivals == map[u := a] && (row.Inbound? ==> row.msg.updateId == u)
    ensures Consume(f, row).arrivals == map[u := Touch(u, a, row)]
  {
  }

  lemma FirstOfNone(f: FoldState, ts: int, m: InboundMsg)
    requires f.arrivals == map[]
    ensures Consume(f, Inbound(ts, m)).arrivals == map[m.updateId := FirstArrival(ts, m)]
  {
  }

  lemma PruneOnly(f: FoldState, u: int, a: Arrival)
    requires f.arrivals == map[u := a] && Done(a)
    ensures Prune(f).arrivals == map[]
  {
  }

  lemma AnsweredWhole(m: InboundMsg)
    ensures Whole(AnsweredLog(m)).arrivals ==
            map[m.updateId := FirstArrival(0, m).(turnId := Some("t"), turnReplied := true)]
  {
    var log, u, a := AnsweredLog(m), m.updateId, FirstArrival(0, m);
    assert log[..1] == [] + [log[0]] && log[..2] == log[..1] + [log[1]] && log == log[..2] + [log[2]];
    WholeSnoc([], log[0]);
    assert Whole(log[..1]).arrivals == map[u := a];
    WholeSnoc(log[..1], log[1]);
    SingleArrival(Whole(log[..1]), u, a, log[1]);
    WholeSnoc(log[..2], log[2]);
    SingleArrival(Whole(log[..2]), u, a.(turnId := Some("t")), log[2]);
  }

  lemma RedeliveredFolds(m: InboundMsg)
    ensures var s := Execute(FRESH, AnsweredThenRedelivered(m));
            var a := FirstArrival(0, m);
            && CatchUp(s).arrivals == map[m.updateId := a]
            && Whole(s.log).arrivals == map[m.updateId := a.(turnId := Some("t"), turnReplied := true, count := 2)]
  {
    var answered, row := Whole(AnsweredLog(m)), Inbound(0, m);
    AnsweredStates(m);
    AnsweredWhole(m);
    WholeSnoc(AnsweredLog(m), row);
    var a := FirstArrival(0, m).(turnId := Some("t"), turnReplied := true);
    SingleArrival(answered, m.updateId, a, row);
    PruneOnly(answered, m.updateId, a);
    FirstOfNone(Prune(answered), 0, m);
  }

  lemma RedeliveredReports(kept: map<int, Arrival>, whole: map<int, Arrival>, m: InboundMsg, windowMs: nat)
    requires m.reaction.None? && m.skipped.None?
    requires var a := FirstArrival(0, m);
             && kept == map[m.updateId := a]
             && whole == map[m.updateId := a.(turnId := Some("t"), turnReplied := true, count := 2)]
    ensures var late := windowMs + 1;
            && LostReply(m, late, None) in Verdicts(kept, late, windowMs)
            && LostReply(m, late, None) !in Verdicts(whole, late, windowMs)
            && DuplicateInbound(m.updateId) in Verdicts(whole, late, windowMs)
  {
    var u, late := m.updateId, windowMs + 1;
    assert LostReply(m, late, None) in LostAt(kept[u], late, windowMs);
    assert DuplicateInbound(u) in DuplicateAt(u, whole[u]);
    VerdictMembers(kept, late, windowMs, LostReply(m, late, None));
    VerdictMembers(whole, late, windowMs, LostReply(m, late, None));
    VerdictMembers(whole, late, windowMs, DuplicateInbound(u));
  }

  /**
   * An update that was answered, pruned and then redelivered: the incremental reconcile reports
   * it lost, the whole history only reports the redelivery.
   */
  lemma RedeliveredAnswerIsReportedLost(m: InboundMsg, windowMs: nat)
    requires m.reaction.None? && m.skipped.None?
    ensures var s := Execute(FRESH, AnsweredThenRedelivered(m));
            && LostReply(m, windowMs + 1, None) in Reported(s, windowMs + 1, windowMs)
            && LostReply(m, windowMs + 1, None) !in WholeHistory(s.log, windowMs + 1, windowMs)
            && DuplicateInbound(m.updateId) in WholeHistory(s.log, windowMs + 1, windowMs)
  {
    var s := Execute(FRESH, AnsweredThenRedelivered(m));
    RedeliveredFolds(m);
    RedeliveredReports(CatchUp(s).arrivals, Whole(s.log).arrivals, m, windowMs);
  }

  /**
   * What an append on a lagging fold does: the next reconcile folds the appended row twice and
   * the first unread row never.
   */
  lemma LaggingAppendSkipsARow(s: Ledger, row: Row)
    requires Steady(s) && Lags(s)
    ensures var f := s.fold.value;
            && CatchUp(s) == ConsumeAll(f, s.log[f.consumed..])
            && CatchUp(Step(s, Append(row))) == ConsumeAll(f, Skipping(s.log, f.consumed, row))
  {
    SkippedTail(s.fold.value, s.log, row);
  }

  /** The rows from position `n` on, with the appended row in the place of the first. */
  function Skipping(log: seq<Row>, n: nat, row: Row): seq<Row>
    requires n < |log|
  {
    [row] + log[n + 1..] + [row]
  }

  lemma SkippedRows(log: seq<Row>, row: Row, n: nat)
    requires n < |log|
    ensures Drop(log + [row], n + 1) == log[n + 1..] + [row]
    ensures Skipping(log, n, row) == [row] + (log[n + 1..] + [row])
  {
  }

  lemma ConsumeOne(f: FoldState, row: Row)
    ensures ConsumeAll(f, [row]) == Consume(f, row)
  {
    ConsumeLast(f, [row]);
    assert [row][..0] == [];
  }

  lemma ConsumeFirst(f: FoldState, row: Row, rest: seq<Row>, whole: seq<Row>)
    requires whole == [row] + rest
    ensures ConsumeAll(f, whole) == ConsumeAll(Consume(f, row), rest)
  {
    ConsumeOne(f, row);
    ConsumeAllAppend(f, [row], rest);
  }

  lemma TailIs(g: FoldState, log: seq<Row>, rest: seq<Row>)
    requires Drop(log, g.consumed) == rest
    ensures Tail(g, log) == ConsumeAll(g, rest)
  {
  }

  lemma ConsumedOne(f: FoldState, row: Row)
    ensures Consume(f, row).consumed == f.consumed + 1
  {
  }

  lemma SkippedTail(f: FoldState, log: seq<Row>, row: Row)
    requires f.consumed < |log|
    ensures Tail(Consume(f, row), log + [row]) == ConsumeAll(f, Skipping(log, f.consumed, row))
  {
    var rest := log[f.consumed + 1..] + [row];
    assert Drop(log + [row], f.consumed + 1) == rest && Skipping(log, f.consumed, row) == [row] + rest by {
      SkippedRows(log, row, f.consumed);
    }
    ConsumedOne(f, row);
    TailIs(Consume(f, row), log + [row], rest);
    ConsumeFirst(f, row, rest, Skipping(log, f.consumed, row));
  }

  /** An abandon on a lagging fold skips the same row, and prunes before the rest is read. */
  lemma LaggingAbandonSkipsARow(s: Ledger, row: Row)
    requires Steady(s) && Lags(s)
    ensures var f := s.fold.value;
            CatchUp(Step(s, Abandon(row))) == ConsumeAll(Prune(Consume(f, row)), s.log[f.consumed + 1..] + [row])
  {
    SkippedRows(s.log, row, s.fold.value.consumed);
  }

  lemma {:induction false} ArrivesIff(f: FoldState, rows: seq<Row>, u: int)
    ensures u in ConsumeAll(f, rows).arrivals <==> u in f.arrivals || Arrives(rows, u)
    decreases |rows|
  {
    if rows != [] {
      var init, last := rows[..|rows| - 1], rows[|rows| - 1];
      ArrivesIff(f, init, u);
      ArrivalsOf(ConsumeAll(f, init), last, u);
      assert rows == init + [last];
    }
  }

  predicate Arrives(rows: seq<Row>, u: int) {
    exists row | row in rows :: row.Inbound? && row.msg.updateId == u
  }

  /**
   * The update whose arrival the append skips is forgotten exactly when no row behind it is
   * another arrival of it.
   */
  lemma SkippedUpdateForgottenIff(s: Ledger, row: Row, u: int)
    requires Steady(s) && Lags(s) && u !in s.fold.value.arrivals
    requires s.log[s.fold.value.consumed].Inbound? && s.log[s.fold.value.consumed].msg.updateId == u
    ensures u in CatchUp(s).arrivals
    ensures u !in CatchUp(Step(s, Append(row))).arrivals <==>
            !Arrives(s.log[s.fold.value.consumed + 1..] + [row], u)
  {
    var n := s.fold.value.consumed;
    ReadArrives(s, u);
    assert s.log[n..][0] == s.log[n];
    SkippedArrives(s, row, u);
    SkippingArrives(s.log, n, row, u);
  }

  lemma ReadArrives(s: Ledger, u: int)
    requires Steady(s) && Lags(s) && u !in s.fold.value.arrivals
    ensures u in CatchUp(s).arrivals <==> Arrives(s.log[s.fold.value.consumed..], u)
  {
    ArrivesIff(s.fold.value, s.log[s.fold.value.consumed..], u);
  }

  lemma SkippedArrives(s: Ledger, row: Row, u: int)
    requires Steady(s) && Lags(s) && u !in s.fold.value.arrivals
    ensures u in CatchUp(Step(s, Append(row))).arrivals <==> Arrives(Skipping(s.log, s.fold.value.consumed, row), u)
  {
    LaggingAppendSkipsARow(s, row);
    ArrivesIff(s.fold.value, Skipping(s.log, s.fold.value.consumed, row), u);
  }

  lemma SkippingArrives(log: seq<Row>, n: nat, row: Row, u: int)
    requires n < |log|
    ensures Arrives(Skipping(log, n, row), u) <==> Arrives(log[n + 1..] + [row], u)
  {
    assert forall r :: r in Skipping(log, n, row) <==> r in log[n + 1..] + [row];
  }

  function ColdPeek(m: InboundMsg): seq<Op> {
    [Reconcile, Restart, Append(Inbound(0, m)), Peek, Append(Outbound(0, "t", 1, "hi"))]
  }

  lemma ColdPeekStates(m: InboundMsg)
    ensures var s := Execute(FRESH, ColdPeek(m));
            && s.log == [Inbound(0, m), Outbound(0, "t", 1, "hi")]
            && CatchUp(s).arrivals == map[]
  {
    var run := ColdPeek(m);
    var s1 := Step(FRESH, run[0]);
    var s2 := Step(s1, run[1]);
    var s3 := Step(s2, run[2]);
    var s4 := Step(s3, run[3]);
    assert Execute(FRESH, run[..0]) == FRESH;
    assert run[..1][..0] == run[..0] && run[..2][..1] == run[..1] && run[..3][..2] == run[..2];
    assert run[..4][..3] == run[..3] && run[..5] == run;
    assert Execute(FRESH, run[..1]) == s1 == Keep([], EMPTY);
    assert Execute(FRESH, run[..2]) == s2;
    assert Execute(FRESH, run[..3]) == s3;
    assert Execute(FRESH, run[..4]) == s4 == Ledger([Inbound(0, m)], Some(EMPTY), Some(EMPTY));
    var s := Step(s4, run[4]);
    var f := Consume(EMPTY, s.log[1]);
    assert Drop(s.log, 1) == [s.log[1]] && [s.log[1]][..0] == [];
    assert ConsumeAll(f, [s.log[1]]) == Consume(ConsumeAll(f, []), s.log[1]);
  }

  /**
   * A run that does so: a cold alarmDue or chatMovedOn loads a lagging snapshot, the next row is
   * appended before any reconcile, and the skipped update is never reported.
   */
  lemma ColdPeekForgetsAnUpdate(m: InboundMsg, windowMs: nat)
    requires m.reaction.None? && m.skipped.None?
    ensures var s := Execute(FRESH, ColdPeek(m));
            && (forall now, d :: d !in Reported(s, now, windowMs))
            && LostReply(m, windowMs + 1, None) in WholeHistory(s.log, windowMs + 1, windowMs)
  {
    var s := Execute(FRESH, ColdPeek(m));
    ColdPeekStates(m);
    forall now, d ensures d !in Reported(s, now, windowMs) {
      VerdictMembers(CatchUp(s).arrivals, now, windowMs, d);
    }
    assert s.log == ([] + [s.log[0]]) + [s.log[1]];
    WholeSnoc([], s.log[0]);
    WholeSnoc([] + [s.log[0]], s.log[1]);
    FirstOfNone(EMPTY, 0, m);
    SingleArrival(Whole([] + [s.log[0]]), m.updateId, FirstArrival(0, m), s.log[1]);
    var whole := Whole(s.log).arrivals;
    assert LostReply(m, windowMs + 1, None) in LostAt(whole[m.updateId], windowMs + 1, windowMs);
    VerdictMembers(whole, windowMs + 1, windowMs, LostReply(m, windowMs + 1, None));
  }
}
