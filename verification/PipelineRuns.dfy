/**
 * The turn pipeline as a state machine. Each event is what runs between two awaits of the
 * source; arrivals may come between any two of them.
 */
module PipelineRuns {
  import opened Orders

  // ---------------------------------------------------------------------------
  // States
  // ---------------------------------------------------------------------------

  datatype Item = Item(turnId: nat, updateId: int, isSelf: bool)

  datatype Carry = Carry(bubbles: seq<string>, fromUpdate: int, fromTurn: nat)

  datatype Stage =
    | Preparing                                 // affect tick and embedding
    | LinkingCarry(updateId: int)               // the interrupted inbound's link row
    | Deliberating(inherited: Option<Carry>)    // the loop turns its own failures into a silence; what runs before it may throw
    | Deciding(bubbles: seq<string>)            // the decision row; [] unless she replies
    | SettlingSilent                            // window bookkeeping of a turn that sends nothing
    | Realizing(left: seq<string>, sent: nat)   // mid-send
    | Recording(left: seq<string>, sent: nat)   // a bubble is out, its outbound row is not written yet
    | Deferring(sent: nat)                      // the interrupted turn's defer row
    | SettlingDone(sent: nat)                   // window bookkeeping after the outcome settled

  /** A pump task of the promise chain; only the first of the chain runs. */
  datatype Pump = Polling | InTurn(item: Item, stage: Stage) | Emptied

  /** A bubble the channel took. */
  datatype Send = Send(turnId: nat, text: string)

  datatype End = End(turnId: nat, sent: nat, died: bool)

  datatype Settled = Settled(turnId: nat, count: nat)

  /** The row that says which turn answers an interrupted inbound. */
  datatype Linked = Linked(updateId: int, turnId: nat)

  datatype Handover = Handover(given: Carry, toTurn: nat)

  /** What the delivery plan makes of the decided bubbles: dropped blanks, splits and merges. */
  type Shaper = seq<string> -> seq<string>

  datatype State = State(
    shape: Shaper,
    queue: seq<Item>,
    chain: seq<Pump>,
    running: bool,
    carry: Option<Carry>,
    armed: bool,
    aborted: bool,
    outcomes: set<nat>,
    // what happened so far
    enqueued: seq<Item>,
    started: seq<Item>,
    decisions: map<nat, seq<string>>,
    sends: seq<Send>,
    ended: seq<End>,
    settled: seq<Settled>,
    handovers: seq<Handover>,
    links: seq<Linked>)

  function Idle(shape: Shaper): State {
    State(shape, [], [], false, None, false, false, {}, [], [], map[], [], [], [], [], [])
  }

  datatype Event =
    | Arrive(updateId: int)
    | SelfArrive
    | Shift
    | Prepared
    | CarryLinked
    | Decided(bubbles: seq<string>)
    | DecisionRecorded
    | SentOne
    | SendRecorded
    | RealizeReturned(reportsAbort: bool)
    | DeferRecorded
    | WindowSettled
    | Threw
    | PumpFinished

  // ---------------------------------------------------------------------------
  // Steps
  // ---------------------------------------------------------------------------

  predicate AtStage(s: State) {
    s.chain != [] && s.chain[0].InTurn?
  }

  predicate Enabled(s: State, e: Event) {
    match e
    case Arrive(_) => true
    case SelfArrive => true
    case Shift => s.chain != [] && s.chain[0].Polling?
    case PumpFinished => s.chain != [] && s.chain[0].Emptied?
    case Prepared => AtStage(s) && s.chain[0].stage.Preparing?
    case CarryLinked => AtStage(s) && s.chain[0].stage.LinkingCarry?
    case Decided(_) => AtStage(s) && s.chain[0].stage.Deliberating?
    case DecisionRecorded => AtStage(s) && s.chain[0].stage.Deciding?
    case SentOne => AtStage(s) && s.chain[0].stage.Realizing? && s.chain[0].stage.left != []
    case SendRecorded => AtStage(s) && s.chain[0].stage.Recording?
    case RealizeReturned(reportsAbort) =>
      AtStage(s) && s.chain[0].stage.Realizing? && (if reportsAbort then s.aborted else s.chain[0].stage.left == [])
    case DeferRecorded => AtStage(s) && s.chain[0].stage.Deferring?
    case WindowSettled => AtStage(s) && (s.chain[0].stage.SettlingSilent? || s.chain[0].stage.SettlingDone?)
    case Threw => AtStage(s)
  }

  function Kick(s: State): State {
    if s.running then s else s.(running := true, chain := s.chain + [Polling])
  }

  function Enqueue(s: State, item: Item): State {
    s.(queue := s.queue + [item], enqueued := s.enqueued + [item])
  }

  function At(s: State, pump: Pump): State
    requires s.chain != []
  {
    s.(chain := [pump] + s.chain[1..])
  }

  /** The carry slot is emptied into the turn that starts deliberating. */
  function ConsumeCarry(s: State, item: Item): State
    requires s.chain != []
  {
    var t := match s.carry
             case None => s
             case Some(c) => s.(carry := None, handovers := s.handovers + [Handover(c, item.turnId)]);
    At(t, InTurn(item, Deliberating(s.carry)))
  }

  /** settleSelfOutcome: resolves the waiter if one is left, and forgets it. */
  function SettleSelf(s: State, turnId: nat, count: nat): State {
    if turnId in s.outcomes
    then s.(outcomes := s.outcomes - {turnId}, settled := s.settled + [Settled(turnId, count)])
    else s
  }

  function EndTurn(s: State, turnId: nat, sent: nat, died: bool): State
    requires s.chain != []
  {
    At(s.(ended := s.ended + [End(turnId, sent, died)]), Polling)
  }

  function FillCarry(s: State, item: Item, left: seq<string>, sent: nat): State
    requires s.chain != []
  {
    At(s.(armed := false, carry := Some(Carry(left, item.updateId, item.turnId))), InTurn(item, Deferring(sent)))
  }

  function SentSoFar(stage: Stage): nat {
    match stage
    case Realizing(_, sent) => sent
    case Recording(_, sent) => sent
    case Deferring(sent) => sent
    case SettlingDone(sent) => sent
    case _ => 0
  }

  /** Whether this step puts undelivered bubbles into the carry slot. */
  predicate Fills(s: State, e: Event)
    requires Enabled(s, e)
  {
    || (e.DecisionRecorded? && s.chain[0].stage.bubbles != [] && s.queue != [])
    || (e.RealizeReturned? && e.reportsAbort && s.chain[0].stage.left != [])
  }

  function Step(s: State, e: Event): State
    requires Enabled(s, e)
  {
    match e
    case Arrive(u) =>
      var t := Enqueue(s, Item(|s.enqueued|, u, false));
      Kick(if s.armed then t.(aborted := true) else t)
    case SelfArrive =>
      var t := Enqueue(s, Item(|s.enqueued|, 0, true));
      Kick(t.(outcomes := s.outcomes + {|s.enqueued|}))
    case Shift =>
      if s.queue == [] then At(s, Emptied)
      else At(s.(queue := s.queue[1..], started := s.started + [s.queue[0]]), InTurn(s.queue[0], Preparing))
    case PumpFinished => s.(chain := s.chain[1..], running := false)
    case Prepared =>
      var item := s.chain[0].item;
      if s.carry.Some? && s.carry.value.fromUpdate != item.updateId then At(s, InTurn(item, LinkingCarry(s.carry.value.fromUpdate)))
      else ConsumeCarry(s, item)
    case CarryLinked =>
      var item := s.chain[0].item;
      ConsumeCarry(s.(links := s.links + [Linked(s.chain[0].stage.updateId, item.turnId)]), item)
    case Decided(bubbles) =>
      var item := s.chain[0].item;
      At(s.(decisions := s.decisions[item.turnId := bubbles]), InTurn(item, Deciding(bubbles)))
    case DecisionRecorded =>
      var item, bubbles := s.chain[0].item, s.chain[0].stage.bubbles;
      if bubbles == [] then At(s, InTurn(item, SettlingSilent))
      else if s.queue != [] then FillCarry(s, item, bubbles, 0)
      else At(s.(armed := true, aborted := false), InTurn(item, Realizing(s.shape(bubbles), 0)))
    case SentOne =>
      var item, st := s.chain[0].item, s.chain[0].stage;
      At(s.(sends := s.sends + [Send(item.turnId, st.left[0])]), InTurn(item, Recording(st.left[1..], st.sent + 1)))
    case SendRecorded =>
      var st := s.chain[0].stage;
      At(s, InTurn(s.chain[0].item, Realizing(st.left, st.sent)))
    case RealizeReturned(reportsAbort) =>
      var item, st := s.chain[0].item, s.chain[0].stage;
      if reportsAbort && st.left != [] then FillCarry(s, item, st.left, st.sent)
      else At(SettleSelf(s.(armed := false), item.turnId, st.sent), InTurn(item, SettlingDone(st.sent)))
    case DeferRecorded =>
      var item, sent := s.chain[0].item, s.chain[0].stage.sent;
      At(SettleSelf(s, item.turnId, sent), InTurn(item, SettlingDone(sent)))
    case WindowSettled =>
      var item, st := s.chain[0].item, s.chain[0].stage;
      EndTurn(if st.SettlingSilent? then SettleSelf(s, item.turnId, 0) else s, item.turnId, SentSoFar(st), false)
    case Threw =>
      var item, st := s.chain[0].item, s.chain[0].stage;
      EndTurn(SettleSelf(s, item.turnId, 0), item.turnId, SentSoFar(st), true)
  }

  // ---------------------------------------------------------------------------
  // What every run keeps
  // ---------------------------------------------------------------------------

  /** One pump at most, and a turn in it exactly while one more turn has started than ended. */
  ghost predicate SingleFlight(s: State) {
    && |s.chain| == (if s.running then 1 else 0)
    && s.started + s.queue == s.enqueued
    && (forall i | 0 <= i < |s.enqueued| :: s.enqueued[i].turnId == i)
    && |s.started| == |s.ended| + (if AtStage(s) then 1 else 0)
    && (forall i | 0 <= i < |s.ended| :: s.ended[i].turnId == i)
    && (AtStage(s) ==> s.chain[0].item == s.started[|s.ended|])
  }

  predicate SettledOf(settled: seq<Settled>, t: nat) {
    exists x | x in settled :: x.turnId == t
  }

  predicate IsSelf(enqueued: seq<Item>, t: nat) {
    t < |enqueued| && enqueued[t].isSelf
  }

  /** How many turns have had their outcome settled or have ended. */
  function Past(s: State): nat {
    |s.ended| + (if AtStage(s) && s.chain[0].stage.SettlingDone? then 1 else 0)
  }

  /** No outcome settles twice; one waits exactly while its self-entry has not settled; none waits on a past turn. */
  ghost predicate OutcomesOf(enqueued: seq<Item>, outcomes: set<nat>, settled: seq<Settled>, past: nat) {
    && (forall i, j | 0 <= i < j < |settled| :: settled[i].turnId != settled[j].turnId)
    && (forall t :: t in outcomes <==> IsSelf(enqueued, t) && !SettledOf(settled, t))
    && (forall x | x in settled :: IsSelf(enqueued, x.turnId) && x.turnId < past)
    && (forall t | t < past :: t !in outcomes)
  }

  ghost predicate Outcomes(s: State) {
    OutcomesOf(s.enqueued, s.outcomes, s.settled, Past(s))
  }

  predicate BeforeConsume(stage: Stage) {
    stage.Preparing? || stage.LinkingCarry?
  }

  predicate HoldsNoCarry(stage: Stage) {
    stage.Deliberating? || stage.Deciding? || stage.SettlingSilent? || stage.Realizing? || stage.Recording?
  }

  /** How many turns are past the point where a turn empties the carry slot. */
  function Consumed(s: State): nat {
    |s.ended| + (if AtStage(s) && !BeforeConsume(s.chain[0].stage) then 1 else 0)
  }

  /** Carries are handed over in order, each to one later turn; the one in the slot is newer than all of them. */
  ghost predicate CarryOf(carry: Option<Carry>, handovers: seq<Handover>, consumed: nat) {
    && (forall i, j | 0 <= i < j < |handovers| ::
          handovers[i].given.fromTurn < handovers[j].given.fromTurn && handovers[i].toTurn < handovers[j].toTurn)
    && (forall h | h in handovers :: h.given.fromTurn < h.toTurn < consumed)
    && (carry.Some? ==>
          && carry.value.fromTurn < consumed
          && (forall h | h in handovers :: h.given.fromTurn < carry.value.fromTurn))
  }

  /** The slot is empty from deliberation to the end of realization. */
  ghost predicate CarryOnce(s: State) {
    && CarryOf(s.carry, s.handovers, Consumed(s))
    && (AtStage(s) && HoldsNoCarry(s.chain[0].stage) ==> s.carry.None?)
  }

  ghost predicate Inv(s: State) {
    SingleFlight(s) && Outcomes(s) && CarryOnce(s)
  }

  // ---------------------------------------------------------------------------
  // Flight
  // ---------------------------------------------------------------------------

  /** The running turn is the one after the last that ended. */
  lemma Current(s: State)
    requires SingleFlight(s) && AtStage(s)
    ensures |s.ended| < |s.started| && s.chain[0].item.turnId == |s.ended|
  {
    assert s.started[|s.ended|] == s.enqueued[|s.ended|];
  }

  predicate WithinTurn(e: Event) {
    e.Prepared? || e.CarryLinked? || e.Decided? || e.DecisionRecorded? || e.SentOne? || e.SendRecorded? || e.RealizeReturned?
    || e.DeferRecorded?
  }

  ghost predicate SameFlight(s: State, t: State)
    requires AtStage(s)
  {
    && t.queue == s.queue && t.enqueued == s.enqueued && t.started == s.started && t.ended == s.ended
    && t.running == s.running && |t.chain| == |s.chain|
    && AtStage(t) && t.chain[0].item == s.chain[0].item
  }

  lemma SetupStep(s: State, e: Event)
    requires Enabled(s, e) && (e.Prepared? || e.CarryLinked? || e.Decided? || e.SentOne? || e.SendRecorded?)
    ensures SameFlight(s, Step(s, e))
    ensures Step(s, e).outcomes == s.outcomes && Step(s, e).settled == s.settled
    ensures !Step(s, e).chain[0].stage.SettlingDone? && !s.chain[0].stage.SettlingDone?
  {
  }

  /** A delivery step either settles the outcome with what was sent, or leaves the outcomes alone. */
  ghost predicate Delivers(s: State, e: Event, t: State)
    requires Enabled(s, e) && AtStage(s) && AtStage(t)
  {
    var r := SettleSelf(s, s.chain[0].item.turnId, SentSoFar(s.chain[0].stage));
    && (if t.chain[0].stage.SettlingDone? then t.outcomes == r.outcomes && t.settled == r.settled
        else t.outcomes == s.outcomes && t.settled == s.settled)
    && t.handovers == s.handovers
    && (if Fills(s, e) then t.carry.Some? && t.carry.value.fromTurn == s.chain[0].item.turnId
                            && t.chain[0].stage.Deferring?
        else t.carry == s.carry)
    && !BeforeConsume(t.chain[0].stage)
  }

  lemma DecisionStep(s: State)
    requires Enabled(s, DecisionRecorded)
    ensures var t := Step(s, DecisionRecorded); SameFlight(s, t) && Delivers(s, DecisionRecorded, t)
  {
  }

  lemma ReturnStep(s: State, e: Event)
    requires Enabled(s, e) && e.RealizeReturned?
    ensures SameFlight(s, Step(s, e)) && Delivers(s, e, Step(s, e))
  {
  }

  lemma DeliveryStep(s: State, e: Event)
    requires Enabled(s, e) && (e.DecisionRecorded? || e.RealizeReturned? || e.DeferRecorded?)
    ensures SameFlight(s, Step(s, e)) && Delivers(s, e, Step(s, e))
  {
    match e {
      case DecisionRecorded => DecisionStep(s);
      case RealizeReturned(_) => ReturnStep(s, e);
      case DeferRecorded =>
    }
  }

  /** Inside a turn nothing starts, ends or is queued. */
  lemma WithinTurnStep(s: State, e: Event)
    requires Enabled(s, e) && WithinTurn(e)
    ensures SameFlight(s, Step(s, e))
  {
    if e.DecisionRecorded? || e.RealizeReturned? || e.DeferRecorded? {
      DeliveryStep(s, e);
    } else {
      SetupStep(s, e);
    }
  }

  lemma ArrivalFlight(s: State, e: Event)
    requires SingleFlight(s) && Enabled(s, e) && (e.Arrive? || e.SelfArrive?)
    ensures SingleFlight(Step(s, e))
    ensures AtStage(Step(s, e)) <==> AtStage(s)
    ensures AtStage(s) ==> Step(s, e).chain[0] == s.chain[0]
  {
    var t := Step(s, e);
    assert t.started + t.queue == s.enqueued + [t.enqueued[|s.enqueued|]];
  }

  lemma EndFlight(s: State, e: Event)
    requires SingleFlight(s) && Enabled(s, e) && (e.WindowSettled? || e.Threw?)
    ensures var t := Step(s, e);
            && SingleFlight(t) && !AtStage(t)
            && t.ended == s.ended + [End(|s.ended|, SentSoFar(s.chain[0].stage), e.Threw?)]
            && t.started == s.started && t.enqueued == s.enqueued
  {
    Current(s);
  }

  lemma PumpFlight(s: State, e: Event)
    requires SingleFlight(s) && Enabled(s, e) && (e.Shift? || e.PumpFinished?)
    ensures SingleFlight(Step(s, e)) && Step(s, e).ended == s.ended
  {
    var t := Step(s, e);
    assert t.started + t.queue == s.started + s.queue;
  }

  lemma FlightStep(s: State, e: Event)
    requires SingleFlight(s) && Enabled(s, e)
    ensures SingleFlight(Step(s, e))
  {
    if WithinTurn(e) {
      WithinTurnStep(s, e);
    } else if e.WindowSettled? || e.Threw? {
      EndFlight(s, e);
    } else if e.Shift? || e.PumpFinished? {
      PumpFlight(s, e);
    } else {
      ArrivalFlight(s, e);
    }
  }

  // ---------------------------------------------------------------------------
  // Outcomes
  // ---------------------------------------------------------------------------

  lemma OutcomeSettles(s: State, past: nat, count: nat)
    requires OutcomesOf(s.enqueued, s.outcomes, s.settled, past)
    ensures var r := SettleSelf(s, past, count);
            OutcomesOf(s.enqueued, r.outcomes, r.settled, past + 1)
  {
    if past in s.outcomes {
      var r := SettleSelf(s, past, count);
      assert r.settled[|s.settled|] == Settled(past, count);
      forall x ensures SettledOf(r.settled, x) <==> SettledOf(s.settled, x) || x == past {
        if SettledOf(s.settled, x) {
          var y :| y in s.settled && y.turnId == x;
          assert y in r.settled;
        }
      }
    }
  }

  lemma OutcomeWaits(enqueued: seq<Item>, item: Item, outcomes: set<nat>, settled: seq<Settled>, past: nat)
    requires OutcomesOf(enqueued, outcomes, settled, past) && past <= |enqueued|
    ensures OutcomesOf(enqueued + [item], if item.isSelf then outcomes + {|enqueued|} else outcomes, settled, past)
  {
    var grown := enqueued + [item];
    forall t ensures IsSelf(grown, t) <==> IsSelf(enqueued, t) || (item.isSelf && t == |enqueued|) {}
    assert !SettledOf(settled, |enqueued|);
  }

  lemma WithinTurnOutcomes(s: State, e: Event)
    requires SingleFlight(s) && Outcomes(s) && Enabled(s, e) && WithinTurn(e)
    ensures Outcomes(Step(s, e))
  {
    Current(s);
    if e.DecisionRecorded? || e.RealizeReturned? || e.DeferRecorded? {
      DeliveryStep(s, e);
      OutcomeSettles(s, |s.ended|, SentSoFar(s.chain[0].stage));
    } else {
      SetupStep(s, e);
    }
  }

  lemma EndOutcomes(s: State, e: Event)
    requires SingleFlight(s) && Outcomes(s) && Enabled(s, e) && (e.WindowSettled? || e.Threw?)
    ensures Outcomes(Step(s, e))
  {
    Current(s);
    EndFlight(s, e);
    if s.chain[0].stage.SettlingDone? {
      assert |s.ended| !in s.outcomes;
    } else {
      OutcomeSettles(s, |s.ended|, 0);
    }
  }

  lemma OutcomesStep(s: State, e: Event)
    requires SingleFlight(s) && Outcomes(s) && Enabled(s, e)
    ensures Outcomes(Step(s, e))
  {
    if WithinTurn(e) {
      WithinTurnOutcomes(s, e);
    } else if e.WindowSettled? || e.Threw? {
      EndOutcomes(s, e);
    } else if e.Arrive? || e.SelfArrive? {
      var t := Step(s, e);
      ArrivalFlight(s, e);
      if AtStage(s) { Current(s); }
      OutcomeWaits(s.enqueued, t.enqueued[|s.enqueued|], s.outcomes, s.settled, Past(s));
    }
  }

  // ---------------------------------------------------------------------------
  // The carry slot
  // ---------------------------------------------------------------------------

  lemma LaterConsumed(carry: Option<Carry>, handovers: seq<Handover>, m: nat, n: nat)
    requires CarryOf(carry, handovers, m) && m <= n
    ensures CarryOf(carry, handovers, n)
  {
  }

  /** The next turn to pass the consume point takes what is in the slot. */
  lemma Consumes(s: State, item: Item)
    requires s.chain != [] && CarryOf(s.carry, s.handovers, item.turnId)
    ensures var t := ConsumeCarry(s, item);
            t.carry.None? && CarryOf(t.carry, t.handovers, item.turnId + 1)
  {
  }

  lemma Filled(handovers: seq<Handover>, carry: Carry)
    requires CarryOf(None, handovers, carry.fromTurn + 1)
    ensures CarryOf(Some(carry), handovers, carry.fromTurn + 1)
  {
  }

  lemma SetupCarry(s: State, e: Event)
    requires Inv(s) && Enabled(s, e) && (e.Prepared? || e.CarryLinked? || e.Decided? || e.SentOne? || e.SendRecorded?)
    ensures CarryOnce(Step(s, e))
  {
    Current(s);
    SetupStep(s, e);
    if e.Prepared? || e.CarryLinked? {
      ConsumingCarry(s, e);
    }
  }

  lemma ConsumingCarry(s: State, e: Event)
    requires Enabled(s, e) && (e.Prepared? || e.CarryLinked?) && CarryOnce(s) && s.chain[0].item.turnId == |s.ended|
    ensures CarryOnce(Step(s, e))
  {
    var item := s.chain[0].item;
    if e.Prepared? && s.carry.Some? && s.carry.value.fromUpdate != item.updateId {
      LinkingOnce(s, item, s.carry.value.fromUpdate);
      assert Step(s, e) == At(s, InTurn(item, LinkingCarry(s.carry.value.fromUpdate)));
    } else {
      var t := if e.Prepared? then s else s.(links := s.links + [Linked(s.chain[0].stage.updateId, item.turnId)]);
      ConsumesOnce(t, item);
      assert Step(s, e) == ConsumeCarry(t, item);
    }
  }

  lemma LinkingOnce(s: State, item: Item, u: int)
    requires AtStage(s) && BeforeConsume(s.chain[0].stage) && CarryOnce(s)
    ensures CarryOnce(At(s, InTurn(item, LinkingCarry(u))))
  {
  }

  lemma ConsumesOnce(s: State, item: Item)
    requires s.chain != [] && item.turnId == |s.ended| && CarryOf(s.carry, s.handovers, |s.ended|)
    ensures CarryOnce(ConsumeCarry(s, item))
  {
    Consumes(s, item);
  }

  lemma DeliveryCarry(s: State, e: Event)
    requires Inv(s) && Enabled(s, e) && (e.DecisionRecorded? || e.RealizeReturned? || e.DeferRecorded?)
    ensures CarryOnce(Step(s, e))
  {
    Current(s);
    DeliveryStep(s, e);
    if Fills(s, e) {
      Filled(s.handovers, Step(s, e).carry.value);
    }
  }

  lemma EndCarry(s: State, e: Event)
    requires Inv(s) && Enabled(s, e) && (e.WindowSettled? || e.Threw?)
    ensures CarryOnce(Step(s, e))
  {
    EndFlight(s, e);
    LaterConsumed(s.carry, s.handovers, Consumed(s), |s.ended| + 1);
  }

  lemma ArrivalCarry(s: State, e: Event)
    requires Inv(s) && Enabled(s, e) && (e.Arrive? || e.SelfArrive?)
    ensures CarryOnce(Step(s, e))
  {
    ArrivalFlight(s, e);
    assert Consumed(Step(s, e)) == Consumed(s);
  }

  lemma PumpCarry(s: State, e: Event)
    requires CarryOnce(s) && |s.chain| <= 1 && Enabled(s, e) && (e.Shift? || e.PumpFinished?)
    ensures CarryOnce(Step(s, e))
  {
    var t := Step(s, e);
    assert t.carry == s.carry && t.handovers == s.handovers && t.ended == s.ended;
    assert AtStage(t) ==> BeforeConsume(t.chain[0].stage);
  }

  lemma CarryStep(s: State, e: Event)
    requires Inv(s) && Enabled(s, e)
    ensures CarryOnce(Step(s, e))
  {
    if e.Prepared? || e.CarryLinked? || e.Decided? || e.SentOne? || e.SendRecorded? {
      SetupCarry(s, e);
    } else if WithinTurn(e) {
      DeliveryCarry(s, e);
    } else if e.WindowSettled? || e.Threw? {
      EndCarry(s, e);
    } else if e.Arrive? || e.SelfArrive? {
      ArrivalCarry(s, e);
    } else {
      PumpCarry(s, e);
    }
  }

  // ---------------------------------------------------------------------------
  // Every run
  // ---------------------------------------------------------------------------

  lemma StepKeepsInv(s: State, e: Event)
    requires Inv(s) && Enabled(s, e)
    ensures Inv(Step(s, e))
  {
    FlightStep(s, e);
    OutcomesStep(s, e);
    CarryStep(s, e);
  }

  ghost predicate Runs(s: State, run: seq<Event>, t: State)
    decreases |run|
  {
    if run == [] then s == t
    else Enabled(s, run[0]) && Runs(Step(s, run[0]), run[1..], t)
  }

  lemma {:induction false} RunKeepsInv(s: State, run: seq<Event>, t: State)
    requires Inv(s) && Runs(s, run, t)
    ensures Inv(t)
    decreases |run|
  {
    if run != [] {
      StepKeepsInv(s, run[0]);
      RunKeepsInv(Step(s, run[0]), run[1..], t);
    }
  }

  ghost predicate Reachable(s: State) {
    exists run :: Runs(Idle(s.shape), run, s)
  }

  lemma IdleInv(shape: Shaper)
    ensures Inv(Idle(shape))
  {
  }

  lemma ReachableInv(s: State)
    requires Reachable(s)
    ensures Inv(s)
  {
    IdleInv(s.shape);
    var run :| Runs(Idle(s.shape), run, s);
    RunKeepsInv(Idle(s.shape), run, s);
  }

  /** Turns run one at a time, in the order they were enqueued: what ended is what started, but for the one in flight. */
  lemma TurnsRunInOrder(s: State)
    requires Reachable(s)
    ensures s.started <= s.enqueued && s.queue == s.enqueued[|s.started|..]
    ensures |s.ended| <= |s.started| <= |s.ended| + 1
    ensures forall i | 0 <= i < |s.ended| :: s.ended[i].turnId == s.started[i].turnId
    ensures |s.started| == |s.ended| + 1 ==> AtStage(s) && s.chain[0].item == s.started[|s.ended|]
  {
    ReachableInv(s);
    assert forall i | 0 <= i < |s.started| :: s.started[i] == s.enqueued[i];
  }

  function TimesSettled(settled: seq<Settled>, t: nat): nat {
    if settled == [] then 0 else (if settled[0].turnId == t then 1 else 0) + TimesSettled(settled[1..], t)
  }

  lemma {:induction false} SettledTimes(settled: seq<Settled>, t: nat)
    requires forall i, j | 0 <= i < j < |settled| :: settled[i].turnId != settled[j].turnId
    ensures TimesSettled(settled, t) == if SettledOf(settled, t) then 1 else 0
  {
    if settled != [] {
      SettledTimes(settled[1..], t);
      assert forall x :: x in settled <==> x == settled[0] || x in settled[1..];
      if SettledOf(settled[1..], t) {
        var x :| x in settled[1..] && x.turnId == t;
        var k :| 0 <= k < |settled[1..]| && settled[1..][k] == x;
        assert settled[k + 1] == x;
      }
    }
  }

  /** Each self-entry's outcome settles exactly once by the time its turn has ended, on whichever path, and no other does. */
  lemma OutcomesSettleOnce(s: State, t: nat)
    requires Reachable(s) && t < |s.enqueued|
    ensures t < |s.ended| ==> TimesSettled(s.settled, t) == if s.enqueued[t].isSelf then 1 else 0
    ensures TimesSettled(s.settled, t) <= 1
    ensures t in s.outcomes <==> s.enqueued[t].isSelf && TimesSettled(s.settled, t) == 0
  {
    ReachableInv(s);
    SettledTimes(s.settled, t);
  }

  /** The slot is empty whenever a turn fills it, and holds that turn's unsent bubbles after. */
  lemma CarrySlotIsEmptyWhenFilled(s: State, e: Event)
    requires Reachable(s) && Enabled(s, e) && Fills(s, e)
    ensures s.carry.None?
    ensures Step(s, e).carry.Some? && Step(s, e).carry.value.fromTurn == |s.ended|
  {
    ReachableInv(s);
    Current(s);
  }

  /** A carried bubble list reaches at most one turn, and a later one; a turn inherits at most one list. */
  lemma CarryReachesOneLaterTurn(s: State, i: nat, j: nat)
    requires Reachable(s) && i < |s.handovers| && j < |s.handovers|
    ensures s.handovers[i].given.fromTurn < s.handovers[i].toTurn
    ensures s.handovers[i].given.fromTurn == s.handovers[j].given.fromTurn ==> i == j
    ensures s.handovers[i].toTurn == s.handovers[j].toTurn ==> i == j
    ensures s.carry.Some? ==> s.carry.value.fromTurn != s.handovers[i].given.fromTurn
  {
    ReachableInv(s);
    assert s.handovers[i] in s.handovers;
    if i < j {
      assert s.handovers[i].given.fromTurn < s.handovers[j].given.fromTurn;
    } else if j < i {
      assert s.handovers[j].given.fromTurn < s.handovers[i].given.fromTurn;
    }
  }

  // ---------------------------------------------------------------------------
  // The wake-up gap
  // ---------------------------------------------------------------------------

  /** Work is queued and no pump will come for it: isBusy answers true, and nothing runs. */
  predicate Stranded(s: State) {
    s.queue != [] && s.chain == []
  }

  /**
   * Between the pump's last look at the queue and the reset of `running`, a kick does nothing. A
   * step strands work exactly when it resets `running` with an entry already queued; an arrival
   * always wakes what is stranded.
   */
  lemma StrandedExactlyInTheGap(s: State, e: Event)
    requires Inv(s) && Enabled(s, e)
    ensures Stranded(Step(s, e)) <==> e.PumpFinished? && s.queue != []
  {
    if WithinTurn(e) {
      WithinTurnStep(s, e);
    }
  }

  /** If nothing arrives in the gap, nothing is ever stranded. */
  lemma {:induction false} NothingStrandedWithoutGapArrivals(s: State, run: seq<Event>, t: State)
    requires Inv(s) && Runs(s, run, t) && !Stranded(s)
    requires s.chain != [] && s.chain[0].Emptied? ==> s.queue == []
    requires QuietGaps(s, run)
    ensures !Stranded(t)
    decreases |run|
  {
    if run != [] {
      StepKeepsInv(s, run[0]);
      StrandedExactlyInTheGap(s, run[0]);
      if WithinTurn(run[0]) { WithinTurnStep(s, run[0]); }
      NothingStrandedWithoutGapArrivals(Step(s, run[0]), run[1..], t);
    }
  }

  /** No entry arrives between an emptied pump and its end. */
  ghost predicate QuietGaps(s: State, run: seq<Event>)
    decreases |run|
  {
    run == [] ||
    (&& Enabled(s, run[0])
     && (s.chain != [] && s.chain[0].Emptied? ==> !run[0].Arrive? && !run[0].SelfArrive?)
     && QuietGaps(Step(s, run[0]), run[1..]))
  }

  // ---------------------------------------------------------------------------
  // What an outcome counts
  // ---------------------------------------------------------------------------

  /**
   * The settled number is the number of bubbles delivered, except on a turn that throws after a
   * send, be it in writing the row of that very send: its outcome settles at 0.
   */
  lemma OutcomeCountsDelivered(s: State, e: Event)
    requires Inv(s) && Enabled(s, e) && |Step(s, e).settled| > |s.settled|
    ensures AtStage(s)
    ensures var x := Step(s, e).settled[|s.settled|];
            x.turnId == |s.ended| &&
            (x.count == SentSoFar(s.chain[0].stage) <==> !(e.Threw? && SentSoFar(s.chain[0].stage) > 0))
  {
    if e.Arrive? || e.SelfArrive? {
      ArrivalFlight(s, e);
    } else if AtStage(s) {
      Current(s);
    }
  }
}
