/**
 * Which recorded updates reach the handler: over every run each of them once, unless one of four
 * mishaps met it; and an update that was missed stays missed.
 */
module IngestCoverage {
  import opened Orders
  import opened LedgerRows
  import opened MessageLedger
  import opened IngestRuns

  /** The update is claimed and about to be handled. */
  predicate AtHand(s: World, u: int) {
    s.process.Up? && s.process.stage.Handle? && s.process.stage.todo != [] && s.process.stage.todo[0].updateId == u
  }

  /**
   * The step takes an update past its handler: no handler is installed, the process dies before the
   * call, or the claim of a new update fails in a process that goes on, whose dedupe set has it by then.
   */
  predicate Misses(s: World, e: Event)
    requires Enabled(s, e)
  {
    || e.NoHandler?
    || (e.Crash? && s.process.stage.Handle?)
    || ((e.ClaimFailed? || e.ClaimCut?) && Head(s).updateId !in s.process.seen)
  }

  ghost predicate NothingMissed(s: World, run: seq<Event>)
    decreases |run|
  {
    run == [] || (Enabled(s, run[0]) && !Misses(s, run[0]) && NothingMissed(Step(s, run[0]), run[1..]))
  }

  /** Whatever is recorded, or taken for recorded by the process, was handled or is about to be. */
  ghost predicate Covered(s: World) {
    && (forall u | u in InboundIds(s.rows) :: u in s.handled || AtHand(s, u))
    && (s.process.Up? ==> forall u | u in s.process.seen :: u in s.handled || AtHand(s, u))
  }

  lemma RowsAfter(s: World, row: Row)
    ensures InboundIds(AppendLine(s, row).rows) <= InboundIds(s.rows) + (if row.Inbound? then {row.msg.updateId} else {})
    ensures InboundIds(s.rows) <= InboundIds(AppendLine(s, row).rows)
  {
    InboundIdsSnoc(s.rows, row);
  }

  lemma StepCovered(s: World, e: Event)
    requires Covered(s) && Enabled(s, e) && !Misses(s, e)
    ensures Covered(Step(s, e))
  {
    match e {
      case Claimed(ts) => RowsAfter(s, Inbound(ts, Head(s)));
      case Linked(ts) => RowsAfter(s, Link(ts, Head(s).updateId, s.process.stage.turn));
      case Handled(_) => assert (s.handled + [Head(s).updateId])[|s.handled|] == Head(s).updateId;
      case HandlerThrew => assert (s.handled + [Head(s).updateId])[|s.handled|] == Head(s).updateId;
      case _ =>
    }
  }

  lemma {:induction false} RunCovered(s: World, run: seq<Event>, t: World)
    requires Covered(s) && Runs(s, run, t) && NothingMissed(s, run)
    ensures Covered(t)
    decreases |run|
  {
    if run != [] {
      StepCovered(s, run[0]);
      RunCovered(Step(s, run[0]), run[1..], t);
    }
  }

  /**
   * From first boot, over every run without a mishap: each recorded update was handled, or is at
   * hand; and exactly once, when no torn write of the run hurts.
   */
  lemma RecordedIsHandled(run: seq<Event>, t: World, u: int)
    requires Runs(FIRST_BOOT, run, t) && NothingMissed(FIRST_BOOT, run) && u in InboundIds(t.rows)
    ensures u in t.handled || AtHand(t, u)
    ensures Unhurt(FIRST_BOOT, run) ==> NoRepeats(t.handled)
  {
    RunCovered(FIRST_BOOT, run, t);
    if Unhurt(FIRST_BOOT, run) {
      FirstBootRunsAreSafe(run, t);
    }
  }

  // ---------------------------------------------------------------------------
  // Missed is missed
  // ---------------------------------------------------------------------------

  ghost predicate SeenCovers(s: World) {
    s.process.Up? ==> InboundIds(s.rows) <= s.process.seen
  }

  /** Recorded, not handled, and not about to be. */
  ghost predicate Missed(s: World, u: int) {
    u in InboundIds(s.rows) && u !in s.handled && !AtHand(s, u)
  }

  lemma StepSeenCovers(s: World, e: Event)
    requires SeenCovers(s) && Enabled(s, e)
    ensures SeenCovers(Step(s, e))
  {
    match e {
      case Claimed(ts) => RowsAfter(s, Inbound(ts, Head(s)));
      case Linked(ts) => RowsAfter(s, Link(ts, Head(s).updateId, s.process.stage.turn));
      case _ =>
    }
  }

  lemma StepMissed(s: World, e: Event, u: int)
    requires SeenCovers(s) && Missed(s, u) && Enabled(s, e)
    ensures Missed(Step(s, e), u)
  {
    match e {
      case Claimed(ts) => RowsAfter(s, Inbound(ts, Head(s)));
      case Linked(ts) => RowsAfter(s, Link(ts, Head(s).updateId, s.process.stage.turn));
      case _ =>
    }
  }

  lemma {:induction false} RunSeenCovers(s: World, run: seq<Event>, t: World)
    requires SeenCovers(s) && Runs(s, run, t)
    ensures SeenCovers(t)
    decreases |run|
  {
    if run != [] {
      StepSeenCovers(s, run[0]);
      RunSeenCovers(Step(s, run[0]), run[1..], t);
    }
  }

  lemma {:induction false} MissedAfter(s: World, run: seq<Event>, t: World, u: int)
    requires SeenCovers(s) && Missed(s, u) && Runs(s, run, t)
    ensures u !in t.handled
    decreases |run|
  {
    if run != [] {
      StepMissed(s, run[0], u);
      StepSeenCovers(s, run[0]);
      MissedAfter(Step(s, run[0]), run[1..], t, u);
    }
  }

  /** From first boot, an update that is recorded and was missed is never handled, by this process or any later one. */
  lemma MissedForever(run: seq<Event>, s: World, more: seq<Event>, t: World, u: int)
    requires Runs(FIRST_BOOT, run, s) && Missed(s, u) && Runs(s, more, t)
    ensures u !in t.handled
  {
    RunSeenCovers(FIRST_BOOT, run, s);
    MissedAfter(s, more, t, u);
  }

  /**
   * After a failed claim of a new update the process polls again, records the update as a duplicate,
   * and so misses it for good: what is left is the reconcile, which reports it lost.
   */
  lemma FailedClaimIsMissed(s: World, ts: int) returns (t: World)
    requires Kept(s) && !s.torn && Enabled(s, ClaimFailed) && Head(s).updateId !in s.process.seen
    ensures Runs(s, [ClaimFailed, Poll(s.process.stage.todo), Claimed(ts)], t)
    ensures Missed(t, Head(s).updateId) && SeenCovers(t)
  {
    var todo, u := s.process.stage.todo, Head(s).updateId;
    var s1 := Step(s, ClaimFailed);
    var s2 := Step(s1, Poll(todo));
    SortOfSorted(IdLeq, todo);
    t := Step(s2, Claimed(ts));
    RunsThree(s, ClaimFailed, s1, Poll(todo), s2, Claimed(ts), t);
    InboundIdsSnoc(s.rows, Inbound(ts, Head(s)));
    assert u !in s.handled;
  }
}
