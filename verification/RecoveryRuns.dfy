/**
 * What recovery keeps over any run of passes, of stretches of passes and of other ledger operations
 * between them: no update is re-enqueued twice, aged losses end for good, and the alarms of one
 * update climb the ladder.
 */
module RecoveryRuns {
  import opened Orders
  import opened LedgerRows
  import opened LedgerFold
  import opened LedgerRuns
  import opened LedgerHistory
  import opened MessageLedger
  import opened Recovery

  // ---------------------------------------------------------------------------
  // Runs
  // ---------------------------------------------------------------------------

  /**
   * A whole recovery pass, one stretch of a pass (the alarm or the recovery of one loss, the latter
   * perhaps with its ledger write failing), or another operation on the same open ledger. A pass
   * that other operations interrupt, or that a throw cuts short, is a run of its stretches.
   */
  datatype Act =
    | RunPass(env: Surroundings)
    | AlarmStep(d: Discrepancy, env: Surroundings)
    | RecoverStep(d: Discrepancy, env: Surroundings)
    | RecoverCut(d: Discrepancy, env: Surroundings)
    | Outside(op: Op)

  ghost function Do(s: State, act: Act, windowMs: int): State {
    match act
    case RunPass(env) => Pass(s, env, windowMs)
    case AlarmStep(d, env) => AlarmOne(s, d, env)
    case RecoverStep(d, env) => RecoverOne(s, d, env)
    case RecoverCut(d, env) => CutShort(s, d, env)
    case Outside(op) => s.(ledger := Step(s.ledger, op))
  }

  /** The ledger operations one loss costs. */
  function OpsOf(s: State, d: Discrepancy, env: Surroundings): seq<Op> {
    if d.DuplicateInbound? || d.inbound.updateId in s.rerun then []
    else
      var m, u := d.inbound, d.inbound.updateId;
      if d.ageMs >= env.graceMs then [Abandon(Abandoned(env.now, u, Grace))]
      else if env.busy(d) then []
      else if ChatMoved(Ensure(s.ledger), m.chatId, env.now - d.ageMs, u) then
        [Peek, Abandon(Abandoned(env.now, u, MovedOn))]
      else
        match env.enqueue(m)
        case None => [Peek]
        case Some(turn) => [Peek, Append(Link(env.now, u, turn))]
  }

  /** The re-run is marked and enqueued before its link row is written; the row, or the abandon row, does not land. */
  function CutShort(s: State, d: Discrepancy, env: Surroundings): State {
    var t, ops := RecoverOne(s, d, env), OpsOf(s, d, env);
    t.(ledger := if |ops| > 0 && ops[0].Peek? then Step(s.ledger, Peek) else s.ledger, earlier := s.earlier)
  }

  function Kept(s: State): map<int, Arrival> {
    CatchUp(s.ledger).arrivals
  }

  predicate Alarmed(s: State, u: int) {
    exists a | a in s.landed :: a.updateId == u
  }

  /** The process holds a fold that has read the whole log, as it does from a reconcile on. */
  predicate Live(s: Ledger) {
    s.fold.Some? && !Lags(s)
  }

  /** A stretch of a pass runs on a live fold. */
  predicate InPass(s: State, act: Act) {
    act.AlarmStep? || act.RecoverStep? || act.RecoverCut? ==> Live(s.ledger)
  }

  /**
   * Alarms go to updates the fold holds. Other callers mark no alarms, stay in this process, and do
   * not redeliver an alarmed update that left the fold.
   */
  predicate Allowed(s: State, act: Act) {
    && InPass(s, act)
    && (act.AlarmStep? && act.d.LostReply? ==> act.d.inbound.updateId in Kept(s))
    && (act.Outside? ==>
      && Legal(s.ledger, act.op)
      && (act.op.Append? || act.op.Abandon? || act.op.Peek? || act.op.Reconcile?)
      && (act.op.Append? && act.op.row.Inbound? && act.op.row.msg.updateId !in Kept(s) ==>
            !Alarmed(s, act.op.row.msg.updateId)))
  }

  ghost predicate AllowedRun(s: State, acts: seq<Act>, windowMs: int)
    decreases |acts|
  {
    acts == [] || (Allowed(s, acts[0]) && AllowedRun(Do(s, acts[0], windowMs), acts[1..], windowMs))
  }

  ghost function DoAll(s: State, acts: seq<Act>, windowMs: int): State
    decreases |acts|
  {
    if acts == [] then s else DoAll(Do(s, acts[0], windowMs), acts[1..], windowMs)
  }

  function AlarmSteps(ds: seq<Discrepancy>, env: Surroundings): seq<Act> {
    seq(|ds|, i requires 0 <= i < |ds| => AlarmStep(ds[i], env))
  }

  function RecoverSteps(ds: seq<Discrepancy>, env: Surroundings): seq<Act> {
    seq(|ds|, i requires 0 <= i < |ds| => RecoverStep(ds[i], env))
  }

  lemma {:induction false} DoAllSnoc(s: State, acts: seq<Act>, last: Act, windowMs: int)
    ensures DoAll(s, acts + [last], windowMs) == Do(DoAll(s, acts, windowMs), last, windowMs)
    decreases |acts|
  {
    if acts == [] {
      assert [] + [last] == [last] && [last][1..] == [];
      assert DoAll(s, [last], windowMs) == DoAll(Do(s, last, windowMs), [], windowMs);
    } else {
      assert (acts + [last])[0] == acts[0] && (acts + [last])[1..] == acts[1..] + [last];
      DoAllSnoc(Do(s, acts[0], windowMs), acts[1..], last, windowMs);
    }
  }

  lemma {:induction false} DoAllAppend(s: State, a: seq<Act>, b: seq<Act>, windowMs: int)
    ensures DoAll(s, a + b, windowMs) == DoAll(DoAll(s, a, windowMs), b, windowMs)
    decreases |b|
  {
    if b == [] {
      assert a + b == a;
    } else {
      var init, last := b[..|b| - 1], b[|b| - 1];
      assert b == init + [last] && a + b == (a + init) + [last];
      DoAllAppend(s, a, init, windowMs);
      DoAllSnoc(s, a + init, last, windowMs);
      DoAllSnoc(DoAll(s, a, windowMs), init, last, windowMs);
    }
  }

  lemma {:induction false} AlarmsAreSteps(s: State, ds: seq<Discrepancy>, env: Surroundings, windowMs: int)
    ensures AlarmAll(s, ds, env) == DoAll(s, AlarmSteps(ds, env), windowMs)
    decreases |ds|
  {
    if ds != [] {
      var init, d := ds[..|ds| - 1], ds[|ds| - 1];
      AlarmsAreSteps(s, init, env, windowMs);
      assert AlarmSteps(ds, env) == AlarmSteps(init, env) + [AlarmStep(d, env)];
      DoAllSnoc(s, AlarmSteps(init, env), AlarmStep(d, env), windowMs);
    }
  }

  lemma {:induction false} RecoveriesAreSteps(s: State, ds: seq<Discrepancy>, env: Surroundings, windowMs: int)
    ensures RecoverAll(s, ds, env) == DoAll(s, RecoverSteps(ds, env), windowMs)
    decreases |ds|
  {
    if ds != [] {
      var init, d := ds[..|ds| - 1], ds[|ds| - 1];
      RecoveriesAreSteps(s, init, env, windowMs);
      assert RecoverSteps(ds, env) == RecoverSteps(init, env) + [RecoverStep(d, env)];
      DoAllSnoc(s, RecoverSteps(init, env), RecoverStep(d, env), windowMs);
    }
  }

  /** A pass is the run of its stretches; what is proved of every run holds wherever a throw cuts it. */
  lemma PassIsItsSteps(s: State, env: Surroundings, windowMs: int)
    ensures var ds := Reported(s.ledger, env.now, windowMs);
            DoAll(s, [Outside(Reconcile)] + (AlarmSteps(ds, env) + RecoverSteps(ds, env)), windowMs) == Pass(s, env, windowMs)
  {
    var ds := Reported(s.ledger, env.now, windowMs);
    var t := s.(ledger := Step(s.ledger, Reconcile));
    var steps := AlarmSteps(ds, env) + RecoverSteps(ds, env);
    assert ([Outside(Reconcile)] + steps)[1..] == steps;
    DoAllAppend(t, AlarmSteps(ds, env), RecoverSteps(ds, env), windowMs);
    AlarmsAreSteps(t, ds, env, windowMs);
    RecoveriesAreSteps(AlarmAll(t, ds, env), ds, env, windowMs);
  }

  // ---------------------------------------------------------------------------
  // What a ledger step does to a kept arrival
  // ---------------------------------------------------------------------------

  ghost predicate Sound(s: Ledger) {
    Steady(s) && Grounded(CatchUp(s))
  }

  /** The arrival is the same update's; an abandon never comes off; only a mark moves the rung. */
  predicate Evolves(a: Arrival, b: Arrival, op: Op) {
    && (a.abandoned.Some? ==> b.abandoned.Some?)
    && (!op.Mark? ==> b.lastEscalation == a.lastEscalation)
  }

  /** After an operation, every kept arrival evolved from a kept one, or is the appended row's first arrival. */
  ghost predicate Effect(k: FoldState, k': FoldState, op: Op) {
    forall u | u in k'.arrivals ::
      if u in k.arrivals then Evolves(k.arrivals[u], k'.arrivals[u], op)
      else AppendedBy(op).Some? && AppendedBy(op).value.Inbound? && AppendedBy(op).value.msg.updateId == u
           && k'.arrivals[u].lastEscalation.None?
  }

  lemma ConsumeEffect(k: FoldState, op: Op)
    requires Grounded(k) && AppendedBy(op).Some?
    ensures Effect(k, Consume(k, AppendedBy(op).value), op) && Grounded(Consume(k, AppendedBy(op).value))
  {
    var row := AppendedBy(op).value;
    GroundedStep(k, row);
    forall u { ArrivalsOf(k, row, u); }
  }

  lemma PruneEffect(k: FoldState, m: FoldState, op: Op)
    requires Effect(k, m, op) && Grounded(m)
    ensures Effect(k, Prune(m), op) && Grounded(Prune(m))
  {
  }

  lemma OpEffect(s: Ledger, op: Op)
    requires Sound(s) && Legal(s, op)
    ensures Sound(Step(s, op)) && Effect(CatchUp(s), CatchUp(Step(s, op)), op)
  {
    StepCaught(s, op);
    var k := CatchUp(s);
    if AppendedBy(op).Some? {
      ConsumeEffect(k, op);
      PruneEffect(k, Consume(k, AppendedBy(op).value), op);
    } else {
      PruneEffect(k, k, op);
    }
  }

  lemma StaysLive(s: Ledger, op: Op)
    requires Sound(s) && (op.Reconcile? || (Live(s) && !op.CrashAfterAppend? && !op.Restart?))
    ensures Live(Step(s, op))
  {
  }

  lemma SameUpdates(s: Ledger, op: Op)
    requires Sound(s) && Legal(s, op) && (op.Mark? || op.Peek?)
    ensures CatchUp(Step(s, op)).arrivals.Keys == CatchUp(s).arrivals.Keys
  {
    StepCaught(s, op);
  }

  // ---------------------------------------------------------------------------
  // No update is re-enqueued twice
  // ---------------------------------------------------------------------------

  ghost predicate Once(s: State) {
    && (forall i, j | 0 <= i < j < |s.enqueued| :: s.enqueued[i] != s.enqueued[j])
    && (forall u | u in s.enqueued :: u in s.rerun)
  }

  lemma {:induction false} AlarmsEnqueueNothing(s: State, ds: seq<Discrepancy>, env: Surroundings)
    ensures AlarmAll(s, ds, env).enqueued == s.enqueued && AlarmAll(s, ds, env).rerun == s.rerun
    decreases |ds|
  {
    if ds != [] { AlarmsEnqueueNothing(s, ds[..|ds| - 1], env); }
  }

  lemma {:induction false} RecoverOnce(s: State, ds: seq<Discrepancy>, env: Surroundings)
    requires Once(s)
    ensures Once(RecoverAll(s, ds, env)) && s.enqueued <= RecoverAll(s, ds, env).enqueued
    decreases |ds|
  {
    if ds != [] { RecoverOnce(s, ds[..|ds| - 1], env); }
  }

  /** Over any passes and any other ledger operations between them, the re-enqueued updates are all different. */
  lemma {:induction false} NeverReenqueuedTwice(s: State, acts: seq<Act>, windowMs: int)
    requires Once(s)
    ensures Once(DoAll(s, acts, windowMs))
    decreases |acts|
  {
    if acts != [] {
      if acts[0].RunPass? {
        var env := acts[0].env;
        var ds := Reported(s.ledger, env.now, windowMs);
        var t := s.(ledger := Step(s.ledger, Reconcile));
        AlarmsEnqueueNothing(t, ds, env);
        RecoverOnce(AlarmAll(t, ds, env), ds, env);
      }
      NeverReenqueuedTwice(Do(s, acts[0], windowMs), acts[1..], windowMs);
    }
  }

  // ---------------------------------------------------------------------------
  // Aged losses end for good
  // ---------------------------------------------------------------------------

  predicate Closed(s: State, u: int) {
    u in Kept(s) ==> Kept(s)[u].abandoned.Some?
  }

  /** Each loss of a pass names an arrival its fold keeps, with that arrival's own age. */
  ghost predicate LossesOf(k: map<int, Arrival>, ds: seq<Discrepancy>, now: int, windowMs: int) {
    forall d | d in ds && d.LostReply? ::
      d.inbound.updateId in k && d in LostAt(k[d.inbound.updateId], now, windowMs)
  }

  lemma ReportedLoss(f: FoldState, now: int, windowMs: int, d: Discrepancy)
    requires Grounded(f) && d.LostReply? && d in Verdicts(f.arrivals, now, windowMs)
    ensures d.inbound.updateId in f.arrivals && d in LostAt(f.arrivals[d.inbound.updateId], now, windowMs)
  {
    VerdictMembers(f.arrivals, now, windowMs, d);
    var u :| u in f.arrivals && (d in LostAt(f.arrivals[u], now, windowMs) || d in DuplicateAt(u, f.arrivals[u]));
    assert d in LostAt(f.arrivals[u], now, windowMs);
    assert f.arrivals[u].msg.updateId == u;
  }

  lemma ReportedLosses(s: Ledger, now: int, windowMs: int)
    requires Sound(s)
    ensures LossesOf(CatchUp(s).arrivals, Reported(s, now, windowMs), now, windowMs)
  {
    forall d | d in Reported(s, now, windowMs) && d.LostReply?
      ensures d.inbound.updateId in CatchUp(s).arrivals
              && d in LostAt(CatchUp(s).arrivals[d.inbound.updateId], now, windowMs)
    {
      ReportedLoss(CatchUp(s), now, windowMs, d);
    }
  }

  /** A loss is never pruned by the pass that reports it. */
  lemma LossesSurvivePrune(s: Ledger, now: int, windowMs: int)
    requires Sound(s)
    ensures forall d | d in Reported(s, now, windowMs) && d.LostReply? ::
              d.inbound.updateId in CatchUp(Step(s, Reconcile)).arrivals
  {
    StepCaught(s, Reconcile);
    ReportedLosses(s, now, windowMs);
    forall d | d in Reported(s, now, windowMs) && d.LostReply?
      ensures d.inbound.updateId in CatchUp(Step(s, Reconcile)).arrivals
    {
      var a := CatchUp(s).arrivals[d.inbound.updateId];
      assert IsLost(a, now, windowMs) && !Done(a);
    }
  }

  lemma AlarmOneSound(s: State, d: Discrepancy, env: Surroundings)
    requires Sound(s.ledger) && Live(s.ledger)
    ensures var t := AlarmOne(s, d, env);
            && Sound(t.ledger) && Live(t.ledger) && Kept(t).Keys == Kept(s).Keys
            && forall u | Closed(s, u) :: Closed(t, u)
  {
    OpEffect(s.ledger, Peek);
    SameUpdates(s.ledger, Peek);
    StaysLive(s.ledger, Peek);
    if d.LostReply? {
      var peeked := Step(s.ledger, Peek);
      var mark := Mark(d.inbound.updateId, EscalationForAge(d.ageMs));
      OpEffect(peeked, mark);
      SameUpdates(peeked, mark);
      StaysLive(peeked, mark);
    }
  }

  lemma {:induction false} AlarmAllSound(s: State, ds: seq<Discrepancy>, env: Surroundings)
    requires Sound(s.ledger) && Live(s.ledger)
    ensures var t := AlarmAll(s, ds, env);
            && Sound(t.ledger) && Live(t.ledger) && Kept(t).Keys == Kept(s).Keys
            && forall u | Closed(s, u) :: Closed(t, u)
    decreases |ds|
  {
    if ds != [] {
      AlarmAllSound(s, ds[..|ds| - 1], env);
      AlarmOneSound(AlarmAll(s, ds[..|ds| - 1], env), ds[|ds| - 1], env);
    }
  }

  lemma RecoverOneEffect(s: State, d: Discrepancy, env: Surroundings)
    requires Sound(s.ledger) && Live(s.ledger)
    ensures var t := RecoverOne(s, d, env);
            && Sound(t.ledger) && Live(t.ledger) && t.landed == s.landed
            && (forall u | u in Kept(t) :: u in Kept(s) && Evolves(Kept(s)[u], Kept(t)[u], Peek))
            && (forall u | Closed(s, u) :: Closed(t, u))
  {
    var ops := OpsOf(s, d, env);
    if |ops| >= 1 {
      OpEffect(s.ledger, ops[0]);
      StaysLive(s.ledger, ops[0]);
    }
    if |ops| == 2 {
      OpEffect(Step(s.ledger, ops[0]), ops[1]);
      StaysLive(Step(s.ledger, ops[0]), ops[1]);
    }
  }

  lemma CutShortEffect(s: State, d: Discrepancy, env: Surroundings)
    requires Sound(s.ledger) && Live(s.ledger)
    ensures var t := CutShort(s, d, env);
            Sound(t.ledger) && Live(t.ledger) && t.landed == s.landed && Kept(t) == Kept(s)
  {
    OpEffect(s.ledger, Peek);
    StaysLive(s.ledger, Peek);
    StepCaught(s.ledger, Peek);
  }

  /** The grace abandon closes its loss. */
  lemma GraceCloses(s: State, d: Discrepancy, env: Surroundings)
    requires Sound(s.ledger) && Live(s.ledger)
    requires d.LostReply? && d.inbound.updateId !in s.rerun && d.ageMs >= env.graceMs
    ensures Closed(RecoverOne(s, d, env), d.inbound.updateId)
  {
    var u := d.inbound.updateId;
    var row := Abandoned(env.now, u, Grace);
    StepCaught(s.ledger, Abandon(row));
    ArrivalsOf(CatchUp(s.ledger), row, u);
  }

  lemma {:induction false} AgedAreClosed(s: State, ds: seq<Discrepancy>, env: Surroundings, u: int)
    requires Sound(s.ledger) && Live(s.ledger) && u !in s.rerun
    requires forall d | d in ds && d.LostReply? && d.inbound.updateId == u :: d.ageMs >= env.graceMs
    ensures var t := RecoverAll(s, ds, env);
            && Sound(t.ledger) && Live(t.ledger) && u !in t.rerun
            && ((exists d :: d in ds && d.LostReply? && d.inbound.updateId == u) ==> Closed(t, u))
    decreases |ds|
  {
    if ds != [] {
      var init, d := ds[..|ds| - 1], ds[|ds| - 1];
      assert ds == init + [d];
      AgedAreClosed(s, init, env, u);
      var mid := RecoverAll(s, init, env);
      RecoverOneEffect(mid, d, env);
      if d.LostReply? && d.inbound.updateId == u {
        GraceCloses(mid, d, env);
      }
    }
  }

  /** Some reconcile at the given time would report the update's reply lost. */
  ghost predicate ReportsLoss(s: State, u: int, now: int, windowMs: int) {
    exists d | d in Reported(s.ledger, now, windowMs) :: d.LostReply? && d.inbound.updateId == u
  }

  lemma ClosedIsNotReported(s: State, u: int, windowMs: int)
    requires Sound(s.ledger) && Closed(s, u)
    ensures forall now :: !ReportsLoss(s, u, now, windowMs)
  {
    forall now ensures !ReportsLoss(s, u, now, windowMs) {
      if ReportsLoss(s, u, now, windowMs) {
        ReportedArrivalIsLost(s, u, now, windowMs);
      }
    }
  }

  /** The pass closes a loss it reports at or past the grace age, unless it was re-run before. */
  lemma AgedLossIsClosed(s: State, env: Surroundings, windowMs: int, d: Discrepancy)
    requires Sound(s.ledger) && d in Reported(s.ledger, env.now, windowMs) && d.LostReply?
    requires d.ageMs >= env.graceMs && d.inbound.updateId !in s.rerun
    ensures Sound(Pass(s, env, windowMs).ledger) && Closed(Pass(s, env, windowMs), d.inbound.updateId)
  {
    var u := d.inbound.updateId;
    var ds := Reported(s.ledger, env.now, windowMs);
    var r := s.(ledger := Step(s.ledger, Reconcile));
    OpEffect(s.ledger, Reconcile);
    StaysLive(s.ledger, Reconcile);
    ReportedLosses(s.ledger, env.now, windowMs);
    forall e | e in ds && e.LostReply? && e.inbound.updateId == u ensures e == d {}
    AlarmAllSound(r, ds, env);
    AlarmsEnqueueNothing(r, ds, env);
    AgedAreClosed(AlarmAll(r, ds, env), ds, env, u);
  }

  /** Nothing is appended on a lagging fold, and the update is not redelivered once the fold let go of it. */
  predicate LeavesClosed(s: State, act: Act, u: int) {
    && InPass(s, act)
    && (act.Outside? ==>
      && Legal(s.ledger, act.op)
      && (AppendedBy(act.op).Some? && u !in Kept(s) ==> !IsInboundOf(AppendedBy(act.op).value, u)))
  }

  predicate IsInboundOf(row: Row, u: int) {
    row.Inbound? && row.msg.updateId == u
  }

  ghost predicate LeavesClosedRun(s: State, acts: seq<Act>, windowMs: int, u: int)
    decreases |acts|
  {
    acts == [] || (LeavesClosed(s, acts[0], u) && LeavesClosedRun(Do(s, acts[0], windowMs), acts[1..], windowMs, u))
  }

  lemma {:induction false} RecoverKeepsClosed(s: State, ds: seq<Discrepancy>, env: Surroundings, u: int)
    requires Sound(s.ledger) && Live(s.ledger) && Closed(s, u)
    ensures var t := RecoverAll(s, ds, env); Sound(t.ledger) && Live(t.ledger) && Closed(t, u)
    decreases |ds|
  {
    if ds != [] {
      RecoverKeepsClosed(s, ds[..|ds| - 1], env, u);
      RecoverOneEffect(RecoverAll(s, ds[..|ds| - 1], env), ds[|ds| - 1], env);
    }
  }

  lemma ActKeepsClosed(s: State, act: Act, windowMs: int, u: int)
    requires Sound(s.ledger) && Closed(s, u) && LeavesClosed(s, act, u)
    ensures Sound(Do(s, act, windowMs).ledger) && Closed(Do(s, act, windowMs), u)
  {
    match act {
      case Outside(op) => OpEffect(s.ledger, op);
      case AlarmStep(d, env) => AlarmOneSound(s, d, env);
      case RecoverStep(d, env) => RecoverOneEffect(s, d, env);
      case RecoverCut(d, env) => CutShortEffect(s, d, env);
      case RunPass(env) =>
        var ds := Reported(s.ledger, env.now, windowMs);
        var t := s.(ledger := Step(s.ledger, Reconcile));
        OpEffect(s.ledger, Reconcile);
        StaysLive(s.ledger, Reconcile);
        AlarmAllSound(t, ds, env);
        RecoverKeepsClosed(AlarmAll(t, ds, env), ds, env, u);
    }
  }

  lemma {:induction false} ClosedRuns(s: State, acts: seq<Act>, windowMs: int, u: int)
    requires Sound(s.ledger) && Closed(s, u) && LeavesClosedRun(s, acts, windowMs, u)
    ensures Sound(DoAll(s, acts, windowMs).ledger) && Closed(DoAll(s, acts, windowMs), u)
    decreases |acts|
  {
    if acts != [] {
      ActKeepsClosed(s, acts[0], windowMs, u);
      ClosedRuns(Do(s, acts[0], windowMs), acts[1..], windowMs, u);
    }
  }

  /**
   * A loss reported at or past the grace age, and not re-run before, ends with that pass: after
   * any later passes, ledger operations, crashes and restarts that do not redeliver the pruned
   * update, no reconcile reports it, at any time.
   */
  lemma AgedLossEnds(s: State, env: Surroundings, acts: seq<Act>, windowMs: int, d: Discrepancy)
    requires Sound(s.ledger) && d in Reported(s.ledger, env.now, windowMs) && d.LostReply?
    requires d.ageMs >= env.graceMs && d.inbound.updateId !in s.rerun
    requires LeavesClosedRun(Pass(s, env, windowMs), acts, windowMs, d.inbound.updateId)
    ensures forall now :: !ReportsLoss(DoAll(Pass(s, env, windowMs), acts, windowMs), d.inbound.updateId, now, windowMs)
  {
    var u := d.inbound.updateId;
    AgedLossIsClosed(s, env, windowMs, d);
    ClosedRuns(Pass(s, env, windowMs), acts, windowMs, u);
    ClosedIsNotReported(DoAll(Pass(s, env, windowMs), acts, windowMs), u, windowMs);
  }

  /** The same when other operations interrupt the pass: the stretch that gives the loss up ends it. */
  lemma AgedStretchEnds(s: State, d: Discrepancy, env: Surroundings, acts: seq<Act>, windowMs: int)
    requires Sound(s.ledger) && Live(s.ledger) && d.LostReply?
    requires d.ageMs >= env.graceMs && d.inbound.updateId !in s.rerun
    requires LeavesClosedRun(RecoverOne(s, d, env), acts, windowMs, d.inbound.updateId)
    ensures forall now :: !ReportsLoss(DoAll(RecoverOne(s, d, env), acts, windowMs), d.inbound.updateId, now, windowMs)
  {
    var t := RecoverOne(s, d, env);
    RecoverOneEffect(s, d, env);
    GraceCloses(s, d, env);
    ClosedRuns(t, acts, windowMs, d.inbound.updateId);
    ClosedIsNotReported(DoAll(t, acts, windowMs), d.inbound.updateId, windowMs);
  }

  /**
   * The excluded act does bring it back: once the fold let go of the update, its redelivery is
   * reported lost at exactly the times past the window, unless it is a reaction or was skipped.
   */
  lemma RedeliveryReopens(s: State, ts: int, m: InboundMsg, windowMs: int)
    requires Sound(s.ledger) && !Lags(s.ledger) && m.updateId !in Kept(s)
    ensures var t := Do(s, Outside(Append(Inbound(ts, m))), windowMs);
            forall now :: ReportsLoss(t, m.updateId, now, windowMs) <==>
                          m.reaction.None? && m.skipped.None? && now - ts > windowMs
  {
    var t := Do(s, Outside(Append(Inbound(ts, m))), windowMs);
    ReopenedArrival(s, ts, m, windowMs);
    forall now ensures ReportsLoss(t, m.updateId, now, windowMs) <==> IsLost(FirstArrival(ts, m), now, windowMs) {
      ReportedIffLost(t, m.updateId, now, windowMs);
    }
  }

  lemma ReopenedArrival(s: State, ts: int, m: InboundMsg, windowMs: int)
    requires Sound(s.ledger) && !Lags(s.ledger) && m.updateId !in Kept(s)
    ensures var t := Do(s, Outside(Append(Inbound(ts, m))), windowMs);
            Sound(t.ledger) && m.updateId in Kept(t) && Kept(t)[m.updateId] == FirstArrival(ts, m)
  {
    OpEffect(s.ledger, Append(Inbound(ts, m)));
    StepCaught(s.ledger, Append(Inbound(ts, m)));
    ArrivalsOf(CatchUp(s.ledger), Inbound(ts, m), m.updateId);
  }

  lemma ReportedIffLost(s: State, u: int, now: int, windowMs: int)
    requires Sound(s.ledger) && u in Kept(s)
    ensures ReportsLoss(s, u, now, windowMs) <==> IsLost(Kept(s)[u], now, windowMs)
  {
    if ReportsLoss(s, u, now, windowMs) {
      ReportedArrivalIsLost(s, u, now, windowMs);
    } else if IsLost(Kept(s)[u], now, windowMs) {
      LostArrivalIsReported(s, u, now, windowMs);
    }
  }

  lemma LostIsListed(arrivals: map<int, Arrival>, u: int, now: int, windowMs: int)
    requires u in arrivals && IsLost(arrivals[u], now, windowMs)
    ensures LostReply(arrivals[u].msg, now - arrivals[u].ts, arrivals[u].turnId) in Verdicts(arrivals, now, windowMs)
  {
    var d := LostReply(arrivals[u].msg, now - arrivals[u].ts, arrivals[u].turnId);
    assert d in LostAt(arrivals[u], now, windowMs);
    VerdictMembers(arrivals, now, windowMs, d);
  }

  lemma LostArrivalIsReported(s: State, u: int, now: int, windowMs: int)
    requires Sound(s.ledger) && u in Kept(s) && IsLost(Kept(s)[u], now, windowMs)
    ensures ReportsLoss(s, u, now, windowMs)
  {
    LostIsListed(Kept(s), u, now, windowMs);
    assert Kept(s)[u].msg.updateId == u;
  }

  lemma ReportedArrivalIsLost(s: State, u: int, now: int, windowMs: int)
    requires Sound(s.ledger) && ReportsLoss(s, u, now, windowMs)
    ensures u in Kept(s) && IsLost(Kept(s)[u], now, windowMs)
  {
    ReportedLosses(s.ledger, now, windowMs);
  }

  /** In the whole history an abandon is forever, whatever rows follow it. */
  lemma AbandonedForever(rows: seq<Row>, more: seq<Row>, i: int, d: Discrepancy, now: int, windowMs: int)
    requires d.LostReply? && AbandonedAt(rows, d.inbound.updateId, i)
    ensures d !in WholeHistory(rows + more, now, windowMs)
  {
    assert (rows + more)[..i] == rows[..i];
    assert AbandonedAt(rows + more, d.inbound.updateId, i);
    LostExactlyWhenOwed(rows + more, d, now, windowMs);
  }

  // ---------------------------------------------------------------------------
  // The alarm ladder
  // ---------------------------------------------------------------------------

  /** Later alarms of the same update sit on strictly higher rungs. */
  predicate Rising(landed: seq<Alarm>) {
    forall i, j | 0 <= i < j < |landed| && landed[i].updateId == landed[j].updateId ::
      Outranks(landed[j].level, landed[i].level)
  }

  ghost predicate OnLadder(s: State) {
    && Rising(s.landed)
    && forall a | a in s.landed && a.updateId in Kept(s) ::
         var last := Kept(s)[a.updateId].lastEscalation;
         last.Some? && Rank(a.level) <= Rank(last.value)
  }

  lemma LadderKept(s: State, t: State)
    requires OnLadder(s) && t.landed == s.landed
    requires forall u | u in Kept(t) && Alarmed(s, u) ::
               u in Kept(s) && Kept(t)[u].lastEscalation == Kept(s)[u].lastEscalation
    ensures OnLadder(t)
  {
    forall a | a in t.landed && a.updateId in Kept(t)
      ensures Kept(t)[a.updateId].lastEscalation.Some?
              && Rank(a.level) <= Rank(Kept(t)[a.updateId].lastEscalation.value)
    {
      assert Alarmed(s, a.updateId);
    }
  }

  lemma AlarmClimbs(s: State, d: Discrepancy, env: Surroundings)
    requires Sound(s.ledger) && Live(s.ledger) && OnLadder(s)
    requires d.LostReply? ==> d.inbound.updateId in Kept(s)
    ensures OnLadder(AlarmOne(s, d, env))
  {
    if d.LostReply? {
      var u, level := d.inbound.updateId, EscalationForAge(d.ageMs);
      var t := AlarmOne(s, d, env);
      var mark := Mark(u, level);
      var peeked := Step(s.ledger, Peek);
      Caught(s.ledger);
      StepCaught(s.ledger, Peek);
      StaysLive(s.ledger, Peek);
      StepCaught(peeked, mark);
      if t.landed == s.landed {
        LadderKept(s, t);
      } else {
        assert Kept(t) == Kept(s)[u := Kept(s)[u].(lastEscalation := Some(level))];
        forall a | a in s.landed && a.updateId == u ensures Outranks(level, a.level) {
          assert Kept(s)[a.updateId].lastEscalation.Some?;
        }
      }
    }
  }

  lemma {:induction false} AlarmsClimb(s: State, ds: seq<Discrepancy>, env: Surroundings)
    requires Sound(s.ledger) && Live(s.ledger) && OnLadder(s)
    requires forall d | d in ds && d.LostReply? :: d.inbound.updateId in Kept(s)
    ensures OnLadder(AlarmAll(s, ds, env))
    decreases |ds|
  {
    if ds != [] {
      AlarmsClimb(s, ds[..|ds| - 1], env);
      AlarmAllSound(s, ds[..|ds| - 1], env);
      AlarmClimbs(AlarmAll(s, ds[..|ds| - 1], env), ds[|ds| - 1], env);
    }
  }

  lemma {:induction false} RecoveryKeepsLadder(s: State, ds: seq<Discrepancy>, env: Surroundings)
    requires Sound(s.ledger) && Live(s.ledger) && OnLadder(s)
    ensures var t := RecoverAll(s, ds, env); Sound(t.ledger) && Live(t.ledger) && OnLadder(t)
    decreases |ds|
  {
    if ds != [] {
      var init, d := ds[..|ds| - 1], ds[|ds| - 1];
      RecoveryKeepsLadder(s, init, env);
      RecoverOneEffect(RecoverAll(s, init, env), d, env);
      LadderKept(RecoverAll(s, init, env), RecoverAll(s, ds, env));
    }
  }

  lemma ActKeepsLadder(s: State, act: Act, windowMs: int)
    requires Sound(s.ledger) && OnLadder(s) && Allowed(s, act)
    ensures Sound(Do(s, act, windowMs).ledger) && OnLadder(Do(s, act, windowMs))
  {
    match act {
      case Outside(op) =>
        OpEffect(s.ledger, op);
        LadderKept(s, Do(s, act, windowMs));
      case AlarmStep(d, env) =>
        AlarmOneSound(s, d, env);
        AlarmClimbs(s, d, env);
      case RecoverStep(d, env) =>
        RecoverOneEffect(s, d, env);
        LadderKept(s, Do(s, act, windowMs));
      case RecoverCut(d, env) =>
        CutShortEffect(s, d, env);
        LadderKept(s, Do(s, act, windowMs));
      case RunPass(env) =>
        var ds := Reported(s.ledger, env.now, windowMs);
        var t := s.(ledger := Step(s.ledger, Reconcile));
        OpEffect(s.ledger, Reconcile);
        StaysLive(s.ledger, Reconcile);
        LadderKept(s, t);
        LossesSurvivePrune(s.ledger, env.now, windowMs);
        AlarmAllSound(t, ds, env);
        AlarmsClimb(t, ds, env);
        RecoveryKeepsLadder(AlarmAll(t, ds, env), ds, env);
    }
  }

  lemma {:induction false} LadderRuns(s: State, acts: seq<Act>, windowMs: int)
    requires Sound(s.ledger) && OnLadder(s) && AllowedRun(s, acts, windowMs)
    ensures OnLadder(DoAll(s, acts, windowMs))
    decreases |acts|
  {
    if acts != [] {
      ActKeepsLadder(s, acts[0], windowMs);
      LadderRuns(Do(s, acts[0], windowMs), acts[1..], windowMs);
    }
  }

  /** The ranks of one update's alarms, in the order they landed. */
  function RanksOf(landed: seq<Alarm>, u: int): (r: seq<nat>)
    decreases |landed|
  {
    if landed == [] then []
    else
      var a := landed[|landed| - 1];
      RanksOf(landed[..|landed| - 1], u) + (if a.updateId == u then [Rank(a.level)] else [])
  }

  lemma {:induction false} RanksRise(landed: seq<Alarm>, u: int)
    requires Rising(landed)
    ensures forall i, j | 0 <= i < j < |RanksOf(landed, u)| :: RanksOf(landed, u)[i] < RanksOf(landed, u)[j]
    ensures forall r | r in RanksOf(landed, u) :: exists a :: a in landed && a.updateId == u && r == Rank(a.level)
    decreases |landed|
  {
    if landed != [] {
      var init, a := landed[..|landed| - 1], landed[|landed| - 1];
      RanksRise(init, u);
      if a.updateId == u {
        forall r | r in RanksOf(init, u) ensures r < Rank(a.level) {
          var b :| b in init && b.updateId == u && r == Rank(b.level);
          var i :| 0 <= i < |init| && init[i] == b;
          assert landed[i] == b && landed[|landed| - 1] == a;
        }
        forall i | 0 <= i < |RanksOf(init, u)| ensures RanksOf(init, u)[i] < Rank(a.level) {
          assert RanksOf(init, u)[i] in RanksOf(init, u);
        }
      }
    }
  }

  lemma {:induction false} RisingBound(ranks: seq<nat>, i: nat)
    requires forall i, j | 0 <= i < j < |ranks| :: ranks[i] < ranks[j]
    requires i < |ranks|
    ensures ranks[i] >= i
  {
    if i > 0 { RisingBound(ranks, i - 1); }
  }

  /**
   * Over any passes of a fresh process on a sound ledger in which no alarmed update comes back after
   * the fold let go of it: the alarms that landed for one update have strictly rising rungs, so
   * there are at most four. AlarmRuns counts them when it does.
   */
  lemma AtMostFourAlarms(ledger: Ledger, acts: seq<Act>, windowMs: int, u: int)
    requires Sound(ledger) && AllowedRun(State(ledger, {}, [], [], []), acts, windowMs)
    ensures var landed := DoAll(State(ledger, {}, [], [], []), acts, windowMs).landed;
            Rising(landed) && |RanksOf(landed, u)| <= 4
  {
    LadderRuns(State(ledger, {}, [], [], []), acts, windowMs);
    var landed := DoAll(State(ledger, {}, [], [], []), acts, windowMs).landed;
    RanksRise(landed, u);
    var ranks := RanksOf(landed, u);
    if ranks != [] {
      var last := |ranks| - 1;
      RisingBound(ranks, last);
      assert ranks[last] in ranks;
    }
  }
}
