/** The bridge's durable row types, verdict types and the alarm ladder. */
module LedgerRows {
  import opened Orders

  datatype Reaction = Reaction(emoji: string, toMsgId: int)

  datatype InboundMsg = InboundMsg(
    updateId: int,
    msgId: int,
    chatId: int,
    ts: int,
    text: string,
    reaction: Option<Reaction>,
    skipped: Option<string>)

  datatype Plan = Reply | Silent | Defer

  datatype DecidedBy = Model | Gate | Failure

  datatype AbandonReason = Grace | MovedOn | Operator

  datatype Row =
    | Inbound(ts: int, msg: InboundMsg)
    | Decision(ts: int, turnId: string, plan: Plan, at: int, dueBy: Option<int>, decidedBy: Option<DecidedBy>)
    | Outbound(ts: int, turnId: string, msgId: int, text: string)
    | Link(ts: int, updateId: int, turnId: string)
    | Abandoned(ts: int, updateId: int, reason: AbandonReason)

  datatype Discrepancy =
    | LostReply(inbound: InboundMsg, ageMs: int, turnId: Option<string>)
    | DuplicateInbound(updateId: int)

  // ---------------------------------------------------------------------------
  // The alarm ladder
  // ---------------------------------------------------------------------------

  datatype Escalation = Initial | OneHour | SixHours | OneDay

  const ONE_HOUR_MS := 3_600_000
  const SIX_HOURS_MS := 21_600_000
  const ONE_DAY_MS := 86_400_000

  function Rank(e: Escalation): (r: nat)
    ensures r <= 3
  {
    match e
    case Initial => 0
    case OneHour => 1
    case SixHours => 2
    case OneDay => 3
  }

  /** The rung counts the thresholds of one, six and twenty-four hours that the age has reached. */
  function EscalationForAge(ageMs: int): (e: Escalation)
    ensures Rank(e) ==
            (if ageMs >= 60 * 60 * 1000 then 1 else 0)
            + (if ageMs >= 6 * 60 * 60 * 1000 then 1 else 0)
            + (if ageMs >= 24 * 60 * 60 * 1000 then 1 else 0)
  {
    if ageMs >= ONE_DAY_MS then OneDay
    else if ageMs >= SIX_HOURS_MS then SixHours
    else if ageMs >= ONE_HOUR_MS then OneHour
    else Initial
  }

  /** An older loss never sits on a lower rung, and it outranks the younger exactly when a threshold lies between them. */
  lemma RungsClimb(younger: int, older: int)
    requires younger <= older
    ensures !Outranks(EscalationForAge(younger), EscalationForAge(older))
    ensures Outranks(EscalationForAge(older), EscalationForAge(younger)) <==>
            exists t | t in [ONE_HOUR_MS, SIX_HOURS_MS, ONE_DAY_MS] :: younger < t <= older
  {
    var ts := [ONE_HOUR_MS, SIX_HOURS_MS, ONE_DAY_MS];
    assert ts[0] in ts && ts[1] in ts && ts[2] in ts;
  }

  predicate Outranks(a: Escalation, b: Escalation) {
    Rank(a) > Rank(b)
  }
}
