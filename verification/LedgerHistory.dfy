/**
 * The reconciliation invariant stated over raw rows, without any fold: what the row history
 * of one update must show for it to be a lost reply or a redelivery. Proved equal to the
 * verdicts of the fold.
 */
module LedgerHistory {
  import opened Orders
  import opened LedgerRows
  import opened LedgerFold
  import opened LedgerRuns

  // ---------------------------------------------------------------------------
  // Raw-row vocabulary
  // ---------------------------------------------------------------------------

  predicate ArrivesAt(rows: seq<Row>, u: int, i: int) {
    0 <= i < |rows| && rows[i].Inbound? && rows[i].msg.updateId == u
  }

  ghost predicate Seen(rows: seq<Row>, u: int) {
    exists i :: ArrivesAt(rows, u, i)
  }

  ghost predicate Redelivered(rows: seq<Row>, u: int) {
    exists i, j :: i < j && ArrivesAt(rows, u, i) && ArrivesAt(rows, u, j)
  }

  /** The arrival the age runs from: least timestamp, first row among equals. */
  ghost predicate Earliest(rows: seq<Row>, u: int, e: int) {
    ArrivesAt(rows, u, e) &&
    forall i | ArrivesAt(rows, u, i) :: rows[e].ts < rows[i].ts || (rows[e].ts == rows[i].ts && e <= i)
  }

  /** A link row that counts: the update had arrived before it. */
  ghost predicate LinksAt(rows: seq<Row>, u: int, l: int) {
    0 <= l < |rows| && rows[l].Link? && rows[l].updateId == u && Seen(rows[..l], u)
  }

  /** The turn the update is linked to now: its last counting link. */
  ghost predicate LinkedTo(rows: seq<Row>, u: int, turn: string) {
    exists l :: LinksAt(rows, u, l) && rows[l].turnId == turn && forall k | l < k :: !LinksAt(rows, u, k)
  }

  ghost predicate AbandonedAt(rows: seq<Row>, u: int, i: int) {
    0 <= i < |rows| && rows[i].Abandoned? && rows[i].updateId == u && Seen(rows[..i], u)
  }

  /** An outbound on the turn the update was linked to at that moment. */
  ghost predicate RepliedAt(rows: seq<Row>, u: int, i: int) {
    0 <= i < |rows| && rows[i].Outbound? && LinkedTo(rows[..i], u, rows[i].turnId)
  }

  /** A decision on the turn the update was linked to at that moment. */
  ghost predicate DecidedAt(rows: seq<Row>, u: int, i: int) {
    0 <= i < |rows| && rows[i].Decision? && LinkedTo(rows[..i], u, rows[i].turnId)
  }

  ghost predicate LastDecision(rows: seq<Row>, u: int, i: int) {
    DecidedAt(rows, u, i) && forall k | i < k :: !DecidedAt(rows, u, k)
  }

  /** A restraint silence, or a defer whose due time is still ahead. */
  predicate HoldsOff(row: Row, now: int)
    requires row.Decision?
  {
    || (row.plan == Silent && row.decidedBy != Some(Failure))
    || (row.plan == Defer && row.dueBy.Some? && row.dueBy.value > now)
  }

  /** The invariant's own words: old enough, a request, never abandoned, never answered, not held off. */
  ghost predicate Owed(rows: seq<Row>, u: int, e: int, now: int, windowMs: int) {
    && Earliest(rows, u, e)
    && rows[e].msg.reaction.None? && rows[e].msg.skipped.None?
    && now - rows[e].ts > windowMs
    && (forall i :: !AbandonedAt(rows, u, i))
    && (forall i :: !RepliedAt(rows, u, i))
    && (forall i | LastDecision(rows, u, i) :: !HoldsOff(rows[i], now))
  }

  // ---------------------------------------------------------------------------
  // What one more row changes
  // ---------------------------------------------------------------------------

  lemma SnocPrefix(rows: seq<Row>, row: Row)
    ensures forall i | 0 <= i <= |rows| :: (rows + [row])[..i] == rows[..i]
    ensures rows[..|rows|] == rows
  {
  }

  lemma SeenSnoc(rows: seq<Row>, row: Row, u: int)
    ensures Seen(rows + [row], u) <==> Seen(rows, u) || (row.Inbound? && row.msg.updateId == u)
    ensures forall i | 0 <= i < |rows| :: ArrivesAt(rows + [row], u, i) <==> ArrivesAt(rows, u, i)
  {
    var all := rows + [row];
    if Seen(rows, u) {
      var i :| ArrivesAt(rows, u, i);
      assert ArrivesAt(all, u, i);
    }
    if row.Inbound? && row.msg.updateId == u {
      assert ArrivesAt(all, u, |rows|);
    }
    if Seen(all, u) {
      var i :| ArrivesAt(all, u, i);
      assert i == |rows| || ArrivesAt(rows, u, i);
    }
  }

  lemma LinkedSnoc(rows: seq<Row>, row: Row, u: int, t: string)
    ensures LinkedTo(rows + [row], u, t) <==>
            if row.Link? && row.updateId == u && Seen(rows, u) then row.turnId == t else LinkedTo(rows, u, t)
  {
    var all := rows + [row];
    SnocPrefix(rows, row);
    assert forall l | 0 <= l < |rows| :: LinksAt(all, u, l) <==> LinksAt(rows, u, l);
    if row.Link? && row.updateId == u && Seen(rows, u) {
      assert LinksAt(all, u, |rows|);
    } else {
      assert forall l | LinksAt(all, u, l) :: l < |rows|;
      if LinkedTo(rows, u, t) {
        var l :| LinksAt(rows, u, l) && rows[l].turnId == t && forall k | l < k :: !LinksAt(rows, u, k);
        assert LinksAt(all, u, l);
      }
      if LinkedTo(all, u, t) {
        var l :| LinksAt(all, u, l) && all[l].turnId == t && forall k | l < k :: !LinksAt(all, u, k);
        assert LinksAt(rows, u, l);
      }
    }
  }

  lemma MarksSnoc(rows: seq<Row>, row: Row, u: int, i: int)
    ensures i < |rows| ==> (AbandonedAt(rows + [row], u, i) <==> AbandonedAt(rows, u, i))
    ensures i < |rows| ==> (RepliedAt(rows + [row], u, i) <==> RepliedAt(rows, u, i))
    ensures i < |rows| ==> (DecidedAt(rows + [row], u, i) <==> DecidedAt(rows, u, i))
    ensures i == |rows| ==> (AbandonedAt(rows + [row], u, i) <==> row.Abandoned? && row.updateId == u && Seen(rows, u))
    ensures i == |rows| ==> (RepliedAt(rows + [row], u, i) <==> row.Outbound? && LinkedTo(rows, u, row.turnId))
    ensures i == |rows| ==> (DecidedAt(rows + [row], u, i) <==> row.Decision? && LinkedTo(rows, u, row.turnId))
  {
    SnocPrefix(rows, row);
  }

  // ---------------------------------------------------------------------------
  // The fold's fields, read off the rows
  // ---------------------------------------------------------------------------

  function Fields(rows: seq<Row>): map<int, Arrival> {
    Whole(rows).arrivals
  }

  lemma FieldsSnoc(rows: seq<Row>, u: int)
    requires rows != []
    ensures var init, row := rows[..|rows| - 1], rows[|rows| - 1];
            && rows == init + [row]
            && (u in Fields(rows) <==> u in Fields(init) || (row.Inbound? && row.msg.updateId == u))
            && (u in Fields(rows) ==>
                  Fields(rows)[u] ==
                  if u in Fields(init) then Touch(u, Fields(init)[u], row) else FirstArrival(row.ts, row.msg))
  {
    var init, row := rows[..|rows| - 1], rows[|rows| - 1];
    WholeSnoc(init, row);
    ArrivalsOf(Whole(init), row, u);
  }

  lemma {:induction false} SeenIsHeld(rows: seq<Row>, u: int)
    ensures u in Fields(rows) <==> Seen(rows, u)
    decreases |rows|
  {
    if rows != [] {
      FieldsSnoc(rows, u);
      SeenIsHeld(rows[..|rows| - 1], u);
      SeenSnoc(rows[..|rows| - 1], rows[|rows| - 1], u);
    }
  }

  lemma {:induction false} TurnIsLink(rows: seq<Row>, u: int, t: string)
    requires u in Fields(rows)
    ensures Fields(rows)[u].turnId == Some(t) <==> LinkedTo(rows, u, t)
    decreases |rows|
  {
    var init, row := rows[..|rows| - 1], rows[|rows| - 1];
    FieldsSnoc(rows, u);
    LinkedSnoc(init, row, u, t);
    SeenIsHeld(init, u);
    if u in Fields(init) {
      TurnIsLink(init, u, t);
    } else {
      NeverLinked(init, u, t);
    }
  }

  lemma UnseenPrefix(rows: seq<Row>, u: int, i: int)
    requires !Seen(rows, u) && 0 <= i <= |rows|
    ensures !Seen(rows[..i], u)
  {
    if Seen(rows[..i], u) {
      var j :| ArrivesAt(rows[..i], u, j);
      assert ArrivesAt(rows, u, j);
    }
  }

  lemma NeverLinked(rows: seq<Row>, u: int, t: string)
    requires !Seen(rows, u)
    ensures !LinkedTo(rows, u, t)
  {
    forall l | 0 <= l < |rows| ensures !LinksAt(rows, u, l) {
      UnseenPrefix(rows, u, l);
    }
  }

  lemma Unmarked(rows: seq<Row>, u: int, i: int)
    requires !Seen(rows, u)
    ensures !AbandonedAt(rows, u, i) && !RepliedAt(rows, u, i) && !DecidedAt(rows, u, i)
  {
    if 0 <= i < |rows| {
      UnseenPrefix(rows, u, i);
      if rows[i].Outbound? || rows[i].Decision? {
        NeverLinked(rows[..i], u, rows[i].turnId);
      }
    }
  }

  lemma {:induction false} AbandonedIsRow(rows: seq<Row>, u: int)
    requires u in Fields(rows)
    ensures Fields(rows)[u].abandoned.Some? <==> exists i :: AbandonedAt(rows, u, i)
    decreases |rows|
  {
    var init, row := rows[..|rows| - 1], rows[|rows| - 1];
    FieldsSnoc(rows, u);
    SeenIsHeld(init, u);
    forall i { MarksSnoc(init, row, u, i); }
    if u in Fields(init) {
      AbandonedIsRow(init, u);
      if i :| AbandonedAt(init, u, i) { assert AbandonedAt(rows, u, i); }
      if row.Abandoned? && row.updateId == u { assert AbandonedAt(rows, u, |init|); }
    } else {
      forall i { Unmarked(init, u, i); }
    }
    if i :| AbandonedAt(rows, u, i) { assert i == |init| || AbandonedAt(init, u, i); }
  }

  lemma {:induction false} RepliedIsRow(rows: seq<Row>, u: int)
    requires u in Fields(rows)
    ensures Fields(rows)[u].turnReplied <==> exists i :: RepliedAt(rows, u, i)
    decreases |rows|
  {
    var init, row := rows[..|rows| - 1], rows[|rows| - 1];
    FieldsSnoc(rows, u);
    SeenIsHeld(init, u);
    forall i { MarksSnoc(init, row, u, i); }
    if u in Fields(init) {
      RepliedIsRow(init, u);
      if row.Outbound? {
        TurnIsLink(init, u, row.turnId);
        if LinkedTo(init, u, row.turnId) { assert RepliedAt(rows, u, |init|); }
      }
      if i :| RepliedAt(init, u, i) { assert RepliedAt(rows, u, i); }
    } else {
      forall i { Unmarked(init, u, i); }
    }
    if i :| RepliedAt(rows, u, i) { assert i == |init| || RepliedAt(init, u, i); }
  }

  function DecisionOf(row: Row): TurnDecision
    requires row.Decision?
  {
    TurnDecision(row.plan, row.dueBy, row.decidedBy)
  }

  lemma {:induction false} DecisionIsRow(rows: seq<Row>, u: int)
    requires u in Fields(rows)
    ensures Fields(rows)[u].decision.None? ==> forall i :: !DecidedAt(rows, u, i)
    ensures Fields(rows)[u].decision.Some? ==> exists i ::
              LastDecision(rows, u, i) && Fields(rows)[u].decision.value == DecisionOf(rows[i])
    decreases |rows|
  {
    var init, row := rows[..|rows| - 1], rows[|rows| - 1];
    FieldsSnoc(rows, u);
    SeenIsHeld(init, u);
    forall i { MarksSnoc(init, row, u, i); }
    if u !in Fields(init) {
      forall i { Unmarked(init, u, i); }
    } else {
      DecisionIsRow(init, u);
      if row.Decision? { TurnIsLink(init, u, row.turnId); }
      if row.Decision? && LinkedTo(init, u, row.turnId) {
        assert LastDecision(rows, u, |init|);
      } else if Fields(init)[u].decision.Some? {
        var i :| LastDecision(init, u, i) && Fields(init)[u].decision.value == DecisionOf(init[i]);
        assert LastDecision(rows, u, i) && rows[i] == init[i];
      }
    }
  }

  lemma {:induction false} AgeIsEarliest(rows: seq<Row>, u: int) returns (e: int)
    requires u in Fields(rows)
    ensures Earliest(rows, u, e) && Fields(rows)[u].msg == rows[e].msg && Fields(rows)[u].ts == rows[e].ts
    decreases |rows|
  {
    var init, row := rows[..|rows| - 1], rows[|rows| - 1];
    FieldsSnoc(rows, u);
    SeenSnoc(init, row, u);
    if u in Fields(init) {
      e := AgeIsEarliest(init, u);
      if row.Inbound? && row.msg.updateId == u && row.ts < init[e].ts {
        e := |init|;
      }
    } else {
      SeenIsHeld(init, u);
      e := |init|;
    }
  }

  lemma {:induction false} CountIsRedelivery(rows: seq<Row>, u: int)
    requires u in Fields(rows)
    ensures Fields(rows)[u].count >= 1
    ensures Fields(rows)[u].count > 1 <==> Redelivered(rows, u)
    decreases |rows|
  {
    var init, row := rows[..|rows| - 1], rows[|rows| - 1];
    FieldsSnoc(rows, u);
    SeenIsHeld(init, u);
    SeenSnoc(init, row, u);
    if u in Fields(init) {
      CountIsRedelivery(init, u);
      if row.Inbound? && row.msg.updateId == u {
        var i :| ArrivesAt(init, u, i);
        assert ArrivesAt(rows, u, i) && ArrivesAt(rows, u, |init|);
      } else if Redelivered(init, u) {
        var i, j :| i < j && ArrivesAt(init, u, i) && ArrivesAt(init, u, j);
        assert ArrivesAt(rows, u, i) && ArrivesAt(rows, u, j);
      }
    }
    if Redelivered(rows, u) && !(row.Inbound? && row.msg.updateId == u) {
      var i, j :| i < j && ArrivesAt(rows, u, i) && ArrivesAt(rows, u, j);
      assert ArrivesAt(init, u, i) && ArrivesAt(init, u, j);
    }
  }

  // ---------------------------------------------------------------------------
  // The two readings are one
  // ---------------------------------------------------------------------------

  lemma EarliestUnique(rows: seq<Row>, u: int, e: int, f: int)
    requires Earliest(rows, u, e) && Earliest(rows, u, f)
    ensures e == f
  {
  }

  lemma ExcusedIsHeldOff(rows: seq<Row>, u: int, now: int)
    requires u in Fields(rows)
    ensures Excused(Fields(rows)[u], now) <==>
            (exists i :: RepliedAt(rows, u, i)) || (exists i :: LastDecision(rows, u, i) && HoldsOff(rows[i], now))
  {
    var a := Fields(rows)[u];
    GroundedWhole(rows);
    RepliedIsRow(rows, u);
    DecisionIsRow(rows, u);
    if a.decision.Some? {
      var i :| LastDecision(rows, u, i) && a.decision.value == DecisionOf(rows[i]);
      forall j | LastDecision(rows, u, j) ensures j == i {}
    }
  }

  lemma LostIsOwed(rows: seq<Row>, u: int, e: int, now: int, windowMs: int)
    requires Earliest(rows, u, e)
    ensures u in Fields(rows)
    ensures Fields(rows)[u].msg == rows[e].msg && Fields(rows)[u].ts == rows[e].ts
    ensures IsLost(Fields(rows)[u], now, windowMs) <==> Owed(rows, u, e, now, windowMs)
  {
    SeenIsHeld(rows, u);
    var f := AgeIsEarliest(rows, u);
    EarliestUnique(rows, u, e, f);
    AbandonedIsRow(rows, u);
    ExcusedIsHeldOff(rows, u, now);
  }

  ghost predicate LinkIs(rows: seq<Row>, u: int, turn: Option<string>) {
    match turn
    case Some(t) => LinkedTo(rows, u, t)
    case None => forall t :: !LinkedTo(rows, u, t)
  }

  lemma TurnIs(rows: seq<Row>, u: int, turn: Option<string>)
    requires u in Fields(rows)
    ensures Fields(rows)[u].turnId == turn <==> LinkIs(rows, u, turn)
  {
    var a := Fields(rows)[u];
    forall t { TurnIsLink(rows, u, t); }
  }

  lemma OnlyOwnReports(rows: seq<Row>, u: int, d: Discrepancy, now: int, windowMs: int)
    requires match d case LostReply(m, _, _) => m.updateId == u case DuplicateInbound(v) => v == u
    ensures d in WholeHistory(rows, now, windowMs) <==>
            u in Fields(rows) && (d in LostAt(Fields(rows)[u], now, windowMs) || d in DuplicateAt(u, Fields(rows)[u]))
  {
    GroundedWhole(rows);
    VerdictMembers(Fields(rows), now, windowMs, d);
  }

  /** Row e is the arrival of an owed update, and the report names its message, its age and its turn. */
  ghost predicate OwedAs(rows: seq<Row>, e: int, d: Discrepancy, now: int, windowMs: int)
    requires d.LostReply?
  {
    && Owed(rows, d.inbound.updateId, e, now, windowMs)
    && d.inbound == rows[e].msg
    && d.ageMs == now - rows[e].ts
    && LinkIs(rows, d.inbound.updateId, d.turnId)
  }

  lemma LostAtIsOwedAs(rows: seq<Row>, e: int, d: Discrepancy, now: int, windowMs: int)
    requires d.LostReply? && Earliest(rows, d.inbound.updateId, e)
    ensures d.inbound.updateId in Fields(rows)
    ensures d in LostAt(Fields(rows)[d.inbound.updateId], now, windowMs) <==> OwedAs(rows, e, d, now, windowMs)
  {
    LostIsOwed(rows, d.inbound.updateId, e, now, windowMs);
    TurnIs(rows, d.inbound.updateId, d.turnId);
  }

  /**
   * The whole-history reconcile reports an update lost exactly when the rows say it is owed, with
   * the earliest arrival's message and age and the turn it is linked to now.
   */
  lemma LostExactlyWhenOwed(rows: seq<Row>, d: Discrepancy, now: int, windowMs: int)
    requires d.LostReply?
    ensures d in WholeHistory(rows, now, windowMs) <==> exists e :: OwedAs(rows, e, d, now, windowMs)
  {
    var u := d.inbound.updateId;
    OnlyOwnReports(rows, u, d, now, windowMs);
    if d in WholeHistory(rows, now, windowMs) {
      var e := AgeIsEarliest(rows, u);
      LostAtIsOwedAs(rows, e, d, now, windowMs);
    }
    if e :| OwedAs(rows, e, d, now, windowMs) {
      LostAtIsOwedAs(rows, e, d, now, windowMs);
    }
  }

  /** A duplicate is reported exactly when two inbound rows carry the id. */
  lemma DuplicateExactlyWhenRedelivered(rows: seq<Row>, u: int, now: int, windowMs: int)
    ensures DuplicateInbound(u) in WholeHistory(rows, now, windowMs) <==> Redelivered(rows, u)
  {
    OnlyOwnReports(rows, u, DuplicateInbound(u), now, windowMs);
    SeenIsHeld(rows, u);
    if u in Fields(rows) {
      CountIsRedelivery(rows, u);
    }
  }
}
