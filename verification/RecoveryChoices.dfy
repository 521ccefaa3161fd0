/**
 * What recovery does with one loss, told by the rows of the ledger and the pipeline alone: which
 * losses are re-run, which are given up and why, and which are left for a later pass.
 */
module RecoveryChoices {
  import opened Orders
  import opened LedgerRows
  import opened LedgerFold
  import opened LedgerRuns
  import opened MessageLedger
  import opened ChatSightings
  import opened Recovery
  import opened RecoveryRuns

  /** Young, not re-run before in this process, and nothing in flight. */
  predicate MayRerun(s: State, d: Discrepancy, env: Surroundings)
    requires d.LostReply?
  {
    d.inbound.updateId !in s.rerun && d.ageMs < env.graceMs && !env.busy(d)
  }

  /** Re-run: enqueued, remembered, and its link row written. */
  predicate Reruns(s: State, t: State, m: InboundMsg, now: int, turn: Option<string>) {
    && turn.Some?
    && t.enqueued == s.enqueued + [m.updateId] && t.rerun == s.rerun + {m.updateId} && t.earlier == s.earlier
    && t.ledger.log == s.ledger.log + [Link(now, m.updateId, turn.value)]
  }

  /** Given up: the abandon row is written, and an overtaken text is kept for the window. */
  predicate GivesUp(s: State, t: State, m: InboundMsg, now: int, reason: AbandonReason) {
    && t.enqueued == s.enqueued && t.rerun == s.rerun
    && t.ledger.log == s.ledger.log + [Abandoned(now, m.updateId, reason)]
    && t.earlier == (if reason == MovedOn && m.text != "" then s.earlier + [m] else s.earlier)
  }

  predicate Leaves(s: State, t: State) {
    t.enqueued == s.enqueued && t.rerun == s.rerun && t.earlier == s.earlier && t.ledger.log == s.ledger.log
  }

  lemma OneOutcome(s: State, t: State, m: InboundMsg, now: int, turn: Option<string>)
    ensures !(Reruns(s, t, m, now, turn) && Leaves(s, t))
    ensures forall r :: !(Reruns(s, t, m, now, turn) && GivesUp(s, t, m, now, r)) && !(GivesUp(s, t, m, now, r) && Leaves(s, t))
    ensures forall r, q :: GivesUp(s, t, m, now, r) && GivesUp(s, t, m, now, q) ==> r == q
  {
    var n := |s.ledger.log|;
    forall x, y: Row | s.ledger.log + [x] == s.ledger.log + [y] ensures x == y {
      assert (s.ledger.log + [x])[n] == x && (s.ledger.log + [y])[n] == y;
    }
  }

  /**
   * Re-run exactly when it may be, its chat did not go on, and the pipeline takes it; given up as
   * overtaken exactly when it may be re-run and its chat went on, and as too old exactly when it was
   * not re-run before and has reached the grace age; left as it is otherwise.
   */
  predicate ChosenBy(s: State, t: State, d: Discrepancy, env: Surroundings, wentOn: bool)
    requires d.LostReply?
  {
    var m, turn := d.inbound, env.enqueue(d.inbound);
    && (Reruns(s, t, m, env.now, turn) <==> MayRerun(s, d, env) && !wentOn && turn.Some?)
    && (GivesUp(s, t, m, env.now, MovedOn) <==> MayRerun(s, d, env) && wentOn)
    && (GivesUp(s, t, m, env.now, Grace) <==> m.updateId !in s.rerun && d.ageMs >= env.graceMs)
    && (|| Reruns(s, t, m, env.now, turn) || GivesUp(s, t, m, env.now, MovedOn)
        || GivesUp(s, t, m, env.now, Grace) || Leaves(s, t))
  }

  predicate SeesMore(f: FoldState, chatId: int, afterTs: int, exclude: int) {
    InboundSince(f, chatId, afterTs, exclude) || OutboundSince(f, chatId, afterTs)
  }

  lemma Does(s: State, d: Discrepancy, env: Surroundings)
    requires Live(s.ledger) && d.LostReply?
    ensures var t, m := RecoverOne(s, d, env), d.inbound;
            var moved := SeesMore(s.ledger.fold.value, d.inbound.chatId, env.now - d.ageMs, d.inbound.updateId);
            if m.updateId in s.rerun then Leaves(s, t)
            else if d.ageMs >= env.graceMs then GivesUp(s, t, m, env.now, Grace)
            else if env.busy(d) then Leaves(s, t)
            else if moved then GivesUp(s, t, m, env.now, MovedOn)
            else if env.enqueue(m).Some? then Reruns(s, t, m, env.now, env.enqueue(m))
            else Leaves(s, t)
  {
  }

  lemma Chosen(s: State, d: Discrepancy, env: Surroundings)
    requires Live(s.ledger) && d.LostReply?
    ensures ChosenBy(s, RecoverOne(s, d, env), d, env,
                     SeesMore(s.ledger.fold.value, d.inbound.chatId, env.now - d.ageMs, d.inbound.updateId))
  {
    Does(s, d, env);
    OneOutcome(s, RecoverOne(s, d, env), d.inbound, env.now, env.enqueue(d.inbound));
  }

  lemma SeesWhatWentOn(ledger: Ledger, run: seq<Op>, chatId: int, afterTs: int, u: int)
    requires LegalRun(FRESH, run) && ledger == Execute(FRESH, run) && Live(ledger)
    ensures SeesMore(ledger.fold.value, chatId, afterTs, u) <==> WentOn(run, chatId, afterTs, u)
  {
    ChatMovedOnIsExact(run, ledger, chatId, afterTs, u);
  }

  /** The choice that recovery makes for a loss, after every legal run of the ledger, for a fold that has read the log. */
  lemma RecoveredIff(s: State, run: seq<Op>, d: Discrepancy, env: Surroundings, windowMs: int)
    requires LegalRun(FRESH, run) && s.ledger == Execute(FRESH, run) && Live(s.ledger) && d.LostReply?
    ensures ChosenBy(s, Do(s, RecoverStep(d, env), windowMs), d, env,
                     WentOn(run, d.inbound.chatId, env.now - d.ageMs, d.inbound.updateId))
  {
    SeesWhatWentOn(s.ledger, run, d.inbound.chatId, env.now - d.ageMs, d.inbound.updateId);
    Chosen(s, d, env);
  }
}
