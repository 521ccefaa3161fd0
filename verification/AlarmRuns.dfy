/**
 * How many alarms one update can cost over any run of recovery: four for each time it comes into
 * the fold. A redelivery of an update the fold let go of starts its ladder anew.
 */
module AlarmRuns {
  import opened Orders
  import opened LedgerRows
  import opened LedgerFold
  import opened LedgerRuns
  import opened MessageLedger
  import opened Recovery
  import opened RecoveryRuns

  /** Stretches of passes run on a live fold, and nobody else marks alarms or appends on a lagging one. */
  predicate Orderly(s: State, act: Act) {
    InPass(s, act) && (act.Outside? ==> Legal(s.ledger, act.op) && !act.op.Mark?)
  }

  ghost predicate OrderlyRun(s: State, acts: seq<Act>, windowMs: int)
    decreases |acts|
  {
    acts == [] || (Orderly(s, acts[0]) && OrderlyRun(Do(s, acts[0], windowMs), acts[1..], windowMs))
  }

  /** The act brings the update into the fold. */
  ghost predicate Opens(s: State, act: Act, windowMs: int, u: int) {
    u !in Kept(s) && u in Kept(Do(s, act, windowMs))
  }

  /** An alarm for an update the fold does not hold: nothing can remember it. */
  predicate Strays(s: State, act: Act, u: int) {
    act.AlarmStep? && act.d.LostReply? && act.d.inbound.updateId == u && u !in Kept(s)
  }

  ghost function Openings(s: State, acts: seq<Act>, windowMs: int, u: int): nat
    decreases |acts|
  {
    if acts == [] then 0
    else (if Opens(s, acts[0], windowMs, u) then 1 else 0) + Openings(Do(s, acts[0], windowMs), acts[1..], windowMs, u)
  }

  ghost function StrayAlarms(s: State, acts: seq<Act>, windowMs: int, u: int): nat
    decreases |acts|
  {
    if acts == [] then 0
    else (if Strays(s, acts[0], u) then 1 else 0) + StrayAlarms(Do(s, acts[0], windowMs), acts[1..], windowMs, u)
  }

  // ---------------------------------------------------------------------------
  // Rungs left
  // ---------------------------------------------------------------------------

  function RungsAbove(last: Option<Escalation>): nat {
    match last
    case None => 4
    case Some(e) => 3 - Rank(e)
  }

  /** How many alarms the update may still cost before it leaves the fold. */
  function RungsLeft(kept: map<int, Arrival>, u: int): nat {
    if u in kept then RungsAbove(kept[u].lastEscalation) else 0
  }

  function Landed(s: State, u: int): nat {
    |RanksOf(s.landed, u)|
  }

  /** Alarms landed and alarms left: what no act raises but an opening or a stray alarm. */
  function Spent(s: State, u: int): nat {
    Landed(s, u) + RungsLeft(Kept(s), u)
  }

  lemma LandedSnoc(landed: seq<Alarm>, a: Alarm, u: int)
    ensures |RanksOf(landed + [a], u)| == |RanksOf(landed, u)| + (if a.updateId == u then 1 else 0)
  {
    assert (landed + [a])[..|landed|] == landed;
  }

  /** An alarm that lands on a kept update takes it to a higher rung. */
  lemma AlarmOneSpends(s: State, d: Discrepancy, env: Surroundings, u: int)
    requires Sound(s.ledger) && Live(s.ledger)
    ensures Spent(AlarmOne(s, d, env), u) <= Spent(s, u) + (if Strays(s, AlarmStep(d, env), u) then 1 else 0)
  {
    if d.LostReply? {
      var v, level := d.inbound.updateId, EscalationForAge(d.ageMs);
      var t := AlarmOne(s, d, env);
      AlarmedFold(s, d, env);
      if t.landed != s.landed {
        LandedSnoc(s.landed, Alarm(v, level), u);
      }
    }
  }

  /** The fold after an alarm: the mark on the update it landed for, if the fold holds it. */
  lemma AlarmedFold(s: State, d: Discrepancy, env: Surroundings)
    requires Sound(s.ledger) && Live(s.ledger) && d.LostReply?
    ensures var v, level := d.inbound.updateId, EscalationForAge(d.ageMs);
            var t := AlarmOne(s, d, env);
            if AlarmIsDue(CatchUp(s.ledger), v, level) && env.heard(d) then
              t.landed == s.landed + [Alarm(v, level)]
              && Kept(t) == if v in Kept(s) then Kept(s)[v := Kept(s)[v].(lastEscalation := Some(level))] else Kept(s)
            else t.landed == s.landed && Kept(t) == Kept(s)
  {
    var mark := Mark(d.inbound.updateId, EscalationForAge(d.ageMs));
    var peeked := Step(s.ledger, Peek);
    Caught(s.ledger);
    StepCaught(s.ledger, Peek);
    StepCaught(peeked, mark);
  }

  lemma {:induction false} AlarmAllSpends(s: State, ds: seq<Discrepancy>, env: Surroundings, u: int)
    requires Sound(s.ledger) && Live(s.ledger)
    requires forall d | d in ds && d.LostReply? :: d.inbound.updateId in Kept(s)
    ensures Spent(AlarmAll(s, ds, env), u) <= Spent(s, u)
    decreases |ds|
  {
    if ds != [] {
      var init, d := ds[..|ds| - 1], ds[|ds| - 1];
      AlarmAllSpends(s, init, env, u);
      AlarmAllSound(s, init, env);
      AlarmOneSpends(AlarmAll(s, init, env), d, env, u);
      assert d in ds;
    }
  }

  lemma EvolvedSpends(s: State, t: State, u: int)
    requires t.landed == s.landed
    requires u in Kept(t) ==> u in Kept(s) && Kept(t)[u].lastEscalation == Kept(s)[u].lastEscalation
    ensures Spent(t, u) <= Spent(s, u)
  {
  }

  lemma {:induction false} RecoverAllSpends(s: State, ds: seq<Discrepancy>, env: Surroundings, u: int)
    requires Sound(s.ledger) && Live(s.ledger)
    ensures var t := RecoverAll(s, ds, env); Sound(t.ledger) && Live(t.ledger) && Spent(t, u) <= Spent(s, u)
    decreases |ds|
  {
    if ds != [] {
      var init, d := ds[..|ds| - 1], ds[|ds| - 1];
      RecoverAllSpends(s, init, env, u);
      RecoverOneEffect(RecoverAll(s, init, env), d, env);
      EvolvedSpends(RecoverAll(s, init, env), RecoverAll(s, ds, env), u);
    }
  }

  lemma PassSpends(s: State, env: Surroundings, windowMs: int, u: int)
    requires Sound(s.ledger)
    ensures Sound(Pass(s, env, windowMs).ledger) && Spent(Pass(s, env, windowMs), u) <= Spent(s, u)
  {
    var ds := Reported(s.ledger, env.now, windowMs);
    var t := s.(ledger := Step(s.ledger, Reconcile));
    OpEffect(s.ledger, Reconcile);
    StaysLive(s.ledger, Reconcile);
    EvolvedSpends(s, t, u);
    LossesSurvivePrune(s.ledger, env.now, windowMs);
    AlarmAllSpends(t, ds, env, u);
    AlarmAllSound(t, ds, env);
    RecoverAllSpends(AlarmAll(t, ds, env), ds, env, u);
  }

  lemma OutsideSpends(s: State, op: Op, windowMs: int, u: int)
    requires Sound(s.ledger) && Orderly(s, Outside(op))
    ensures var t := Do(s, Outside(op), windowMs);
            Sound(t.ledger) && Spent(t, u) <= Spent(s, u) + (if Opens(s, Outside(op), windowMs, u) then 4 else 0)
  {
    OpEffect(s.ledger, op);
    if !Opens(s, Outside(op), windowMs, u) {
      EvolvedSpends(s, Do(s, Outside(op), windowMs), u);
    }
  }

  lemma ActSpends(s: State, act: Act, windowMs: int, u: int)
    requires Sound(s.ledger) && Orderly(s, act)
    ensures var t := Do(s, act, windowMs);
            && Sound(t.ledger)
            && Spent(t, u) <= Spent(s, u) + (if Opens(s, act, windowMs, u) then 4 else 0) + (if Strays(s, act, u) then 1 else 0)
  {
    match act {
      case RunPass(env) => PassSpends(s, env, windowMs, u);
      case AlarmStep(d, env) =>
        AlarmOneSound(s, d, env);
        AlarmOneSpends(s, d, env, u);
      case RecoverStep(d, env) =>
        RecoverOneEffect(s, d, env);
        EvolvedSpends(s, Do(s, act, windowMs), u);
      case RecoverCut(d, env) =>
        CutShortEffect(s, d, env);
        EvolvedSpends(s, Do(s, act, windowMs), u);
      case Outside(op) => OutsideSpends(s, op, windowMs, u);
    }
  }

  lemma {:induction false} RunSpends(s: State, acts: seq<Act>, windowMs: int, u: int)
    requires Sound(s.ledger) && OrderlyRun(s, acts, windowMs)
    ensures Spent(DoAll(s, acts, windowMs), u)
            <= Spent(s, u) + 4 * Openings(s, acts, windowMs, u) + StrayAlarms(s, acts, windowMs, u)
    decreases |acts|
  {
    if acts != [] {
      ActSpends(s, acts[0], windowMs, u);
      RunSpends(Do(s, acts[0], windowMs), acts[1..], windowMs, u);
    }
  }

  /**
   * Over any run of passes, stretches of passes, other operations, crashes and restarts: at most
   * four alarms for each time the update comes into the fold, the time it may be there at the start
   * included, and one for each alarm raised while the fold does not hold it.
   */
  lemma AlarmsPerOpening(ledger: Ledger, acts: seq<Act>, windowMs: int, u: int)
    requires Sound(ledger) && OrderlyRun(State(ledger, {}, [], [], []), acts, windowMs)
    ensures var s := State(ledger, {}, [], [], []);
            var before := if u in CatchUp(ledger).arrivals then 1 else 0;
            |RanksOf(DoAll(s, acts, windowMs).landed, u)|
            <= 4 * (before + Openings(s, acts, windowMs, u)) + StrayAlarms(s, acts, windowMs, u)
  {
    RunSpends(State(ledger, {}, [], [], []), acts, windowMs, u);
  }

  /** Only a delivery of the update opens it. */
  lemma OnlyDeliveriesOpen(s: State, act: Act, windowMs: int, u: int)
    requires Sound(s.ledger) && Orderly(s, act) && Opens(s, act, windowMs, u)
    ensures act.Outside? && AppendedBy(act.op).Some? && IsInboundOf(AppendedBy(act.op).value, u)
  {
    match act {
      case RunPass(env) => PassOpensNothing(s, env, windowMs, u);
      case AlarmStep(d, env) => AlarmOneSound(s, d, env);
      case RecoverStep(d, env) => RecoverOneEffect(s, d, env);
      case RecoverCut(d, env) => CutShortEffect(s, d, env);
      case Outside(op) => OpEffect(s.ledger, op);
    }
  }

  lemma {:induction false} RecoverAllOpensNothing(s: State, ds: seq<Discrepancy>, env: Surroundings, u: int)
    requires Sound(s.ledger) && Live(s.ledger) && u !in Kept(s)
    ensures var t := RecoverAll(s, ds, env); Sound(t.ledger) && Live(t.ledger) && u !in Kept(t)
    decreases |ds|
  {
    if ds != [] {
      RecoverAllOpensNothing(s, ds[..|ds| - 1], env, u);
      RecoverOneEffect(RecoverAll(s, ds[..|ds| - 1], env), ds[|ds| - 1], env);
    }
  }

  lemma PassOpensNothing(s: State, env: Surroundings, windowMs: int, u: int)
    requires Sound(s.ledger) && u !in Kept(s)
    ensures u !in Kept(Pass(s, env, windowMs))
  {
    var ds := Reported(s.ledger, env.now, windowMs);
    var t := s.(ledger := Step(s.ledger, Reconcile));
    OpEffect(s.ledger, Reconcile);
    StaysLive(s.ledger, Reconcile);
    AlarmAllSound(t, ds, env);
    RecoverAllOpensNothing(AlarmAll(t, ds, env), ds, env, u);
  }

  /**
   * The count is not idle: whatever alarms an update has cost, once the fold let go of it a
   * redelivery opens it again and the next alarm lands on any rung.
   */
  lemma RedeliveryAlarmsAgain(s: State, ts: int, m: InboundMsg, d: Discrepancy, env: Surroundings, windowMs: int)
    requires Sound(s.ledger) && Live(s.ledger) && m.updateId !in Kept(s)
    requires d.LostReply? && d.inbound.updateId == m.updateId && env.heard(d)
    ensures var t := Do(s, Outside(Append(Inbound(ts, m))), windowMs);
            && Opens(s, Outside(Append(Inbound(ts, m))), windowMs, m.updateId) && Live(t.ledger)
            && Do(t, AlarmStep(d, env), windowMs).landed == s.landed + [Alarm(m.updateId, EscalationForAge(d.ageMs))]
  {
    var t := Do(s, Outside(Append(Inbound(ts, m))), windowMs);
    ReopenedArrival(s, ts, m, windowMs);
    StaysLive(s.ledger, Append(Inbound(ts, m)));
    AlarmedFold(t, d, env);
  }
}
