/**
 * Lost-reply recovery: alarm what the ladder says is due, then re-run, abandon or defer each
 * loss. A pass is a walk over the reconcile's list; the world between passes may append rows.
 */
module Recovery {
  import opened Orders
  import opened LedgerRows
  import opened LedgerFold
  import opened LedgerRuns
  import opened MessageLedger

  datatype Alarm = Alarm(updateId: int, level: Escalation)

  /** What a pass meets: whether an emit is heard, whether the pipeline is busy, and what it answers. */
  datatype Surroundings = Surroundings(
    now: int,
    graceMs: int,
    heard: Discrepancy -> bool,
    busy: Discrepancy -> bool,
    enqueue: InboundMsg -> Option<string>)

  datatype State = State(
    ledger: Ledger,
    rerun: set<int>,
    enqueued: seq<int>,
    landed: seq<Alarm>,
    earlier: seq<InboundMsg>)

  // ---------------------------------------------------------------------------
  // One loss
  // ---------------------------------------------------------------------------

  function AlarmOne(s: State, d: Discrepancy, env: Surroundings): State {
    if d.DuplicateInbound? then s
    else
      var u, level := d.inbound.updateId, EscalationForAge(d.ageMs);
      var peeked := Step(s.ledger, Peek);
      if !AlarmIsDue(Ensure(s.ledger), u, level) || !env.heard(d) then s.(ledger := peeked)
      else s.(ledger := Step(peeked, Mark(u, level)), landed := s.landed + [Alarm(u, level)])
  }

  function RecoverOne(s: State, d: Discrepancy, env: Surroundings): State {
    if d.DuplicateInbound? || d.inbound.updateId in s.rerun then s
    else
      var m, u := d.inbound, d.inbound.updateId;
      if d.ageMs >= env.graceMs then s.(ledger := Step(s.ledger, Abandon(Abandoned(env.now, u, Grace))))
      else if env.busy(d) then s
      else
        var peeked := Step(s.ledger, Peek);
        if ChatMoved(Ensure(s.ledger), m.chatId, env.now - d.ageMs, u) then
          s.(ledger := Step(peeked, Abandon(Abandoned(env.now, u, MovedOn))),
             earlier := if m.text != "" then s.earlier + [m] else s.earlier)
        else
          match env.enqueue(m)
          case None => s.(ledger := peeked)
          case Some(turn) =>
            s.(ledger := Step(peeked, Append(Link(env.now, u, turn))),
               rerun := s.rerun + {u},
               enqueued := s.enqueued + [u])
  }

  function AlarmAll(s: State, ds: seq<Discrepancy>, env: Surroundings): State
    decreases |ds|
  {
    if ds == [] then s else AlarmOne(AlarmAll(s, ds[..|ds| - 1], env), ds[|ds| - 1], env)
  }

  function RecoverAll(s: State, ds: seq<Discrepancy>, env: Surroundings): State
    decreases |ds|
  {
    if ds == [] then s else RecoverOne(RecoverAll(s, ds[..|ds| - 1], env), ds[|ds| - 1], env)
  }

  /** runReconcile: reconcile, alarm, recover. */
  ghost function Pass(s: State, env: Surroundings, windowMs: int): State {
    var ds := Reported(s.ledger, env.now, windowMs);
    RecoverAll(AlarmAll(s.(ledger := Step(s.ledger, Reconcile)), ds, env), ds, env)
  }

  // ---------------------------------------------------------------------------
  // The pass on the real ledger
  // ---------------------------------------------------------------------------

  class Recoverer {
    var ledger: Opened
    var rerun: set<int>
    ghost var enqueued: seq<int>
    ghost var landed: seq<Alarm>
    var earlier: seq<InboundMsg>

    ghost function Now(): State
      reads this, ledger, ledger.fold
    {
      State(ledger.State(), rerun, enqueued, landed, earlier)
    }

    constructor (l: Opened)
      ensures ledger == l && rerun == {} && enqueued == [] && landed == [] && earlier == []
    {
      ledger, rerun, earlier := l, {}, [];
      enqueued, landed := [], [];
    }

    method EmitLostReplyAlarm(d: Discrepancy, env: Surroundings)
      requires ledger.Valid() && ledger.fold != null && d.LostReply?
      modifies this`landed, ledger, ledger.fold
      ensures ledger.Valid() && ledger.fold == old(ledger.fold)
      ensures Now() == AlarmOne(old(Now()), d, env)
    {
      var due, level := ledger.AlarmDue(d.inbound.updateId, d.ageMs);
      if due && env.heard(d) {
        landed := landed + [Alarm(d.inbound.updateId, level)];
        ledger.MarkAlarmed(d.inbound.updateId, level);
      }
    }

    method RecoverLoss(d: Discrepancy, env: Surroundings)
      requires ledger.Valid() && ledger.fold != null && d.LostReply?
      modifies this`rerun, this`enqueued, this`earlier, ledger, ledger.fold
      ensures ledger.Valid() && ledger.fold == old(ledger.fold)
      ensures Now() == RecoverOne(old(Now()), d, env)
    {
      var m, u := d.inbound, d.inbound.updateId;
      if u in rerun {
        return;
      }
      if d.ageMs >= env.graceMs {
        ledger.AbandonLoss(env.now, u, Grace);
        return;
      }
      if env.busy(d) {
        return;
      }
      var moved := ledger.ChatMovedOn(m.chatId, env.now - d.ageMs, u);
      if moved {
        ledger.AbandonLoss(env.now, u, MovedOn);
        if m.text != "" {
          earlier := earlier + [m];
        }
        return;
      }
      var turn := env.enqueue(m);
      if turn.None? {
        return;
      }
      rerun := rerun + {u};
      enqueued := enqueued + [u];
      ledger.LinkTurn(env.now, u, turn.value);
    }

    method EmitAlarms(ds: seq<Discrepancy>, env: Surroundings)
      requires ledger.Valid() && ledger.fold != null
      modifies this`landed, ledger, ledger.fold
      ensures ledger.Valid() && ledger.fold == old(ledger.fold)
      ensures Now() == AlarmAll(old(Now()), ds, env)
    {
      ghost var start := Now();
      for i := 0 to |ds|
        invariant ledger.Valid() && ledger.fold == old(ledger.fold)
        invariant Now() == AlarmAll(start, ds[..i], env)
      {
        AllNext(start, ds, env, i);
        if ds[i].LostReply? {
          EmitLostReplyAlarm(ds[i], env);
        }
      }
      assert ds[..|ds|] == ds;
    }

    method RecoverLost(ds: seq<Discrepancy>, env: Surroundings)
      requires ledger.Valid() && ledger.fold != null
      modifies this, ledger, ledger.fold
      ensures ledger == old(ledger) && ledger.Valid() && ledger.fold == old(ledger.fold)
      ensures Now() == RecoverAll(AlarmAll(old(Now()), ds, env), ds, env)
    {
      EmitAlarms(ds, env);
      ghost var start := Now();
      for i := 0 to |ds|
        invariant ledger == old(ledger) && ledger.Valid() && ledger.fold == old(ledger.fold)
        invariant Now() == RecoverAll(start, ds[..i], env)
      {
        AllNext(start, ds, env, i);
        if ds[i].LostReply? {
          RecoverLoss(ds[i], env);
        }
      }
      assert ds[..|ds|] == ds;
    }

    method RunReconcile(env: Surroundings) returns (ds: seq<Discrepancy>)
      requires ledger.Valid()
      modifies this, ledger, ledger.fold
      ensures ledger == old(ledger) && ledger.Valid()
      ensures ds == Reported(old(ledger.State()), env.now, ledger.windowMs)
      ensures Now() == Pass(old(Now()), env, ledger.windowMs)
    {
      ds := ledger.ReconcilePass(env.now);
      RecoverLost(ds, env);
    }
  }

  lemma AllNext(s: State, ds: seq<Discrepancy>, env: Surroundings, i: nat)
    requires i < |ds|
    ensures AlarmAll(s, ds[..i + 1], env) == AlarmOne(AlarmAll(s, ds[..i], env), ds[i], env)
    ensures RecoverAll(s, ds[..i + 1], env) == RecoverOne(RecoverAll(s, ds[..i], env), ds[i], env)
  {
    assert ds[..i + 1][..i] == ds[..i];
  }
}
