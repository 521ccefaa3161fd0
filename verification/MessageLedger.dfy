/**
 * The opened message ledger: durable rows and snapshot, and the process state kept beside
 * them (the fold, the dedupe set, the replay counter). Every operation is proved to be the
 * step of the same name in LedgerRuns, so what is proved there of every run holds here.
 */
module MessageLedger {
  import opened Orders
  import opened LedgerRows
  import opened LedgerFold
  import opened LedgerRuns
  import opened LedgerHistory

  datatype Summary = Summary(turnId: string, plan: Plan, at: int, dueBy: Option<int>, decidedBy: Option<DecidedBy>)

  datatype Recorded = Recorded | DecisionMismatch

  function InboundIds(log: seq<Row>): set<int>
    decreases |log|
  {
    if log == [] then {}
    else
      var last := log[|log| - 1];
      InboundIds(log[..|log| - 1]) + (if last.Inbound? then {last.msg.updateId} else {})
  }

  lemma {:induction false} InboundIdsAreSeen(log: seq<Row>, u: int)
    ensures u in InboundIds(log) <==> Seen(log, u)
    decreases |log|
  {
    if log != [] {
      var init := log[..|log| - 1];
      assert log == init + [log[|log| - 1]];
      InboundIdsAreSeen(init, u);
      SeenSnoc(init, log[|log| - 1], u);
    }
  }

  lemma InboundIdsSnoc(log: seq<Row>, row: Row)
    ensures InboundIds(log + [row]) == InboundIds(log) + (if row.Inbound? then {row.msg.updateId} else {})
  {
    assert (log + [row])[..|log|] == log;
  }

  /** Whether the fold remembers a different inbound of the chat after the given time. */
  predicate InboundSince(f: FoldState, chatId: int, afterTs: int, exclude: int) {
    chatId in f.inboundTop && exists e | e in f.inboundTop[chatId] :: e.updateId != exclude && e.ts > afterTs
  }

  /** Whether the fold remembers an outbound to the chat after the given time. */
  predicate OutboundSince(f: FoldState, chatId: int, afterTs: int) {
    chatId in f.outboundLast && f.outboundLast[chatId] > afterTs
  }

  /** Whether the chat saw a different inbound, or an outbound, after the given time, as the fold remembers it. */
  predicate ChatMoved(f: FoldState, chatId: int, afterTs: int, exclude: int) {
    InboundSince(f, chatId, afterTs, exclude) || OutboundSince(f, chatId, afterTs)
  }

  predicate AlarmIsDue(f: FoldState, u: int, level: Escalation) {
    u !in f.arrivals || f.arrivals[u].lastEscalation.None? || Outranks(level, f.arrivals[u].lastEscalation.value)
  }

  class Opened {
    const windowMs: int
    var log: seq<Row>
    var snapshot: Option<FoldState>
    var fold: Fold?
    var seen: Option<set<int>>
    var lastReplayed: nat

    ghost function State(): Ledger
      reads this, fold
    {
      Ledger(log, snapshot, if fold == null then None else Some(fold.State()))
    }

    /** The dedupe set, once loaded, is the set of recorded ids; the snapshot never counts rows that do not exist. */
    ghost predicate Valid()
      reads this, fold
    {
      && (seen.Some? ==> seen.value == InboundIds(log))
      && Steady(State())
    }

    /** A fresh open over what a crash or a shutdown left on disk. */
    constructor (rows: seq<Row>, saved: Option<FoldState>, window: int)
      requires saved.Some? ==> saved.value.consumed <= |rows|
      ensures Valid() && State() == Ledger(rows, saved, None) && windowMs == window
    {
      log, snapshot, fold, seen, lastReplayed, windowMs := rows, saved, null, None, 0, window;
    }

    method LoadSeen() returns (s: set<int>)
      requires Valid()
      modifies `seen
      ensures Valid() && seen == Some(s) && s == InboundIds(log)
    {
      if seen.Some? {
        return seen.value;
      }
      s := {};
      for i := 0 to |log|
        invariant s == InboundIds(log[..i])
      {
        assert log[..i + 1] == log[..i] + [log[i]];
        InboundIdsSnoc(log[..i], log[i]);
        if log[i].Inbound? {
          s := s + {log[i].msg.updateId};
        }
      }
      assert log[..|log|] == log;
      seen := Some(s);
    }

    /** Reads the rows after the first `f.consumed` into the fold. */
    method ReplayInto(f: Fold) returns (n: nat)
      modifies f
      ensures f.State() == Tail(old(f.State()), log) && n == |Drop(log, old(f.consumed))|
    {
      var rows := Drop(log, f.consumed);
      ReplayRows(f, rows);
      n := |rows|;
    }

    method ReplayRows(f: Fold, rows: seq<Row>)
      modifies f
      ensures f.State() == ConsumeAll(old(f.State()), rows)
    {
      ghost var was := f.State();
      for n := 0 to |rows|
        invariant f.State() == ConsumeAll(was, rows[..n])
      {
        ConsumeNext(was, rows, n);
        f.ConsumeRow(rows[n]);
      }
      assert rows[..|rows|] == rows;
    }

    method EnsureFold() returns (f: Fold)
      modifies this`fold, this`lastReplayed
      ensures fold == f && (if old(fold) != null then fold == old(fold) else fresh(fold))
      ensures f.State() == Ensure(old(State()))
      ensures old(fold) != null ==> lastReplayed == old(lastReplayed)
      ensures old(fold) == null ==> lastReplayed == if snapshot.None? then |log| else 0
    {
      if fold != null {
        return fold;
      }
      match snapshot {
        case Some(saved) =>
          f := new Fold(saved);
          lastReplayed := 0;
        case None =>
          f := new Fold(EMPTY);
          lastReplayed := ReplayInto(f);
      }
      fold := f;
    }

    method AppendAndFold(row: Row)
      requires Steady(State())
      modifies this`log, this`snapshot, fold
      ensures log == old(log) + [row] && fold == old(fold)
      ensures State() == AppendRow(old(State()), row) && Steady(State())
    {
      StepSteady(State(), Append(row));
      log := log + [row];
      if fold != null {
        fold.ConsumeRow(row);
        snapshot := Some(fold.State());
      }
    }

    /** Every arrival is recorded, redeliveries included; the answer says whether the id is new to the log. */
    method RecordInbound(now: int, m: InboundMsg) returns (isNew: bool)
      requires Valid()
      modifies this`log, this`snapshot, this`seen, fold
      ensures Valid() && State() == Step(old(State()), Append(Inbound(now, m))) && fold == old(fold)
      ensures isNew <==> m.updateId !in InboundIds(old(log))
    {
      var s := LoadSeen();
      isNew := m.updateId !in s;
      InboundIdsSnoc(log, Inbound(now, m));
      AppendAndFold(Inbound(now, m));
      if isNew {
        seen := Some(s + {m.updateId});
      }
    }

    method RecordDecision(now: int, turnId: string, d: Summary) returns (r: Recorded)
      requires Valid()
      modifies this`log, this`snapshot, fold
      ensures Valid() && fold == old(fold)
      ensures r == DecisionMismatch <==> d.turnId != turnId || (d.plan == Defer && d.dueBy.None?)
      ensures r == DecisionMismatch ==> State() == old(State())
      ensures r == Recorded ==>
                State() == Step(old(State()), Append(Decision(now, turnId, d.plan, d.at, d.dueBy, d.decidedBy)))
    {
      if d.turnId != turnId || (d.plan == Defer && d.dueBy.None?) {
        return DecisionMismatch;
      }
      var row := Decision(now, turnId, d.plan, d.at, d.dueBy, d.decidedBy);
      InboundIdsSnoc(log, row);
      AppendAndFold(row);
      r := Recorded;
    }

    method RecordOutbound(now: int, turnId: string, msgId: int, text: string)
      requires Valid()
      modifies this`log, this`snapshot, fold
      ensures Valid() && State() == Step(old(State()), Append(Outbound(now, turnId, msgId, text))) && fold == old(fold)
    {
      var row := Outbound(now, turnId, msgId, text);
      InboundIdsSnoc(log, row);
      AppendAndFold(row);
    }

    method LinkTurn(now: int, updateId: int, turnId: string)
      requires Valid()
      modifies this`log, this`snapshot, fold
      ensures Valid() && State() == Step(old(State()), Append(Link(now, updateId, turnId))) && fold == old(fold)
    {
      var row := Link(now, updateId, turnId);
      InboundIdsSnoc(log, row);
      AppendAndFold(row);
    }

    method AbandonLoss(now: int, updateId: int, reason: AbandonReason)
      requires Valid()
      modifies this`log, this`snapshot, fold
      ensures Valid() && State() == Step(old(State()), Abandon(Abandoned(now, updateId, reason))) && fold == old(fold)
    {
      var row := Abandoned(now, updateId, reason);
      InboundIdsSnoc(log, row);
      StepSteady(State(), Abandon(row));
      AppendAndFold(row);
      if fold != null {
        fold.PruneDone();
        snapshot := Some(fold.State());
      }
    }

    /** Due the first time, then only on a higher rung; reading it marks nothing. */
    method AlarmDue(updateId: int, ageMs: int) returns (due: bool, level: Escalation)
      requires Valid()
      modifies this`fold, this`lastReplayed
      ensures Valid() && State() == Step(old(State()), Peek) && (if old(fold) != null then fold == old(fold) else fresh(fold))
      ensures level == EscalationForAge(ageMs) && due == AlarmIsDue(Ensure(old(State())), updateId, level)
    {
      var f := EnsureFold();
      level := EscalationForAge(ageMs);
      due := updateId !in f.arrivals || f.arrivals[updateId].lastEscalation.None?
             || Outranks(level, f.arrivals[updateId].lastEscalation.value);
    }

    method MarkAlarmed(updateId: int, level: Escalation)
      requires Valid()
      modifies this`snapshot, fold
      ensures Valid() && State() == Step(old(State()), Mark(updateId, level)) && fold == old(fold)
    {
      StepSteady(State(), Mark(updateId, level));
      if fold == null || updateId !in fold.arrivals {
        return;
      }
      fold.arrivals := fold.arrivals[updateId := fold.arrivals[updateId].(lastEscalation := Some(level))];
      snapshot := Some(fold.State());
    }

    method ChatMovedOn(chatId: int, afterTs: int, exclude: int) returns (moved: bool)
      requires Valid()
      modifies this`fold, this`lastReplayed
      ensures Valid() && State() == Step(old(State()), Peek) && (if old(fold) != null then fold == old(fold) else fresh(fold))
      ensures moved <==> || InboundSince(Ensure(old(State())), chatId, afterTs, exclude)
                         || OutboundSince(Ensure(old(State())), chatId, afterTs)
    {
      var f := EnsureFold();
      var top := if chatId in f.inboundTop then f.inboundTop[chatId] else [];
      if exists e | e in top :: e.updateId != exclude && e.ts > afterTs {
        return true;
      }
      moved := chatId in f.outboundLast && f.outboundLast[chatId] > afterTs;
    }

    /** Loads the fold if need be and reads the rows it has not seen; the replay counter adds up since the load. */
    method CaughtUp() returns (f: Fold)
      requires Valid()
      modifies this`fold, this`lastReplayed, fold
      ensures fold == f && (if old(fold) != null then f == old(fold) else fresh(f))
      ensures f.State() == CatchUp(old(State()))
      ensures lastReplayed ==
              if old(fold) != null then old(lastReplayed) + |log| - old(fold.consumed)
              else |log| - (if snapshot.Some? then snapshot.value.consumed else 0)
    {
      f := EnsureFold();
      var n := ReplayInto(f);
      lastReplayed := lastReplayed + n;
    }

    /** One pass: catch up with the log, list the verdicts, prune, persist. LedgerRuns shows when the list is the whole history's. */
    method ReconcilePass(now: int) returns (out: seq<Discrepancy>)
      requires Valid()
      modifies this`snapshot, this`fold, this`lastReplayed, fold
      ensures Valid() && State() == Step(old(State()), Reconcile)
      ensures fold != null && (if old(fold) != null then fold == old(fold) else fresh(fold))
      ensures out == Reported(old(State()), now, windowMs)
    {
      ghost var was := State();
      var f := CaughtUp();
      out := f.VerdictsOf(now, windowMs);
      f.PruneDone();
      snapshot := Some(f.State());
      assert State() == Step(was, Reconcile);
      StepSteady(was, Reconcile);
    }
  }
}
