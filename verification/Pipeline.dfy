/**
 * The pipeline object: the closure state of the source and, for each stretch of code between two
 * awaits, a method over it. `chain` is the promise chain with the program counter of its pump.
 * Each method is proved to be the step of the same name in PipelineRuns.
 */
module Pipeline {
  import opened Orders
  import opened LedgerRows
  import opened PipelineRuns

  class TurnPipeline {
    const allowedChatIds: seq<int>
    const shape: Shaper
    var queue: seq<Item>
    var chain: seq<Pump>
    var running: bool
    var carry: Option<Carry>
    var armed: bool
    var aborted: bool
    var outcomes: set<nat>
    var nextTurnId: nat
    var lastInboundAt: Option<int>
    ghost var enqueued: seq<Item>
    ghost var started: seq<Item>
    ghost var decisions: map<nat, seq<string>>
    ghost var sends: seq<Send>
    ghost var ended: seq<End>
    ghost var settled: seq<Settled>
    ghost var handovers: seq<Handover>
    ghost var links: seq<Linked>

    ghost function Now(): State
      reads this
    {
      State(shape, queue, chain, running, carry, armed, aborted, outcomes,
            enqueued, started, decisions, sends, ended, settled, handovers, links)
    }

    ghost predicate Valid()
      reads this
    {
      Inv(Now()) && nextTurnId == |enqueued|
    }

    constructor (allowed: seq<int>, shaper: Shaper)
      ensures Valid() && Now() == Idle(shaper) && allowedChatIds == allowed
    {
      allowedChatIds, shape := allowed, shaper;
      queue, chain, running, carry, armed, aborted, outcomes := [], [], false, None, false, false, {};
      nextTurnId, lastInboundAt := 0, None;
      enqueued, started, decisions, sends := [], [], map[], [];
      ended, settled, handovers, links := [], [], [], [];
      new;
      IdleInv(shaper);
    }

    /** The turn is over; the pump looks at the queue again. */
    method FinishTurn(item: Item, sent: nat, ghost died: bool)
      requires chain != []
      modifies this`ended, this`chain
      ensures Now() == EndTurn(old(Now()), item.turnId, sent, died)
    {
      ended := ended + [End(item.turnId, sent, died)];
      MoveTo(Polling);
    }

    method KickPump()
      modifies this`running, this`chain
      ensures Now() == Kick(old(Now()))
    {
      if running {
        return;
      }
      running := true;
      chain := chain + [Polling];
    }

    method PushItem(item: Item)
      modifies this`queue, this`enqueued, this`nextTurnId
      ensures Now() == Enqueue(old(Now()), item) && nextTurnId == old(nextTurnId) + 1
    {
      nextTurnId := nextTurnId + 1;
      queue := queue + [item];
      enqueued := enqueued + [item];
    }

    /** Mint, queue, interrupt a live send, kick. */
    method StartTurn(updateId: int) returns (turnId: nat)
      requires Valid()
      modifies this
      ensures Valid() && turnId == old(nextTurnId) && lastInboundAt == old(lastInboundAt)
      ensures Now() == Step(old(Now()), Arrive(updateId))
    {
      turnId := nextTurnId;
      PushItem(Item(turnId, updateId, false));
      if armed {
        aborted := true;
      }
      KickPump();
      StepKeepsInv(old(Now()), Arrive(updateId));
    }

    /** Skipped updates, strangers and bare reactions start no turn; anything else is queued, aborts a live send, and kicks. */
    method Inbound(m: InboundMsg, now: int) returns (turnId: Option<nat>)
      requires Valid()
      modifies this
      ensures Valid()
      ensures turnId.None? <==>
              m.skipped.Some? || m.chatId !in allowedChatIds || (m.reaction.Some? && m.text == "")
      ensures turnId.None? ==> Now() == old(Now())
      ensures turnId.Some? ==> turnId.value == old(nextTurnId) && Now() == Step(old(Now()), Arrive(m.updateId))
      ensures lastInboundAt ==
              if m.skipped.Some? || m.chatId !in allowedChatIds then old(lastInboundAt) else Some(now)
    {
      if m.skipped.Some? || m.chatId !in allowedChatIds {
        return None;
      }
      lastInboundAt := Some(now);
      if m.reaction.Some? && m.text == "" {
        return None;
      }
      var id := StartTurn(m.updateId);
      turnId := Some(id);
    }

    method SelfEntry() returns (turnId: nat)
      requires Valid()
      modifies this
      ensures Valid() && turnId == old(nextTurnId) && Now() == Step(old(Now()), SelfArrive)
    {
      turnId := nextTurnId;
      outcomes := outcomes + {turnId};
      PushItem(Item(turnId, 0, true));
      KickPump();
      StepKeepsInv(old(Now()), SelfArrive);
    }

    /**
     * What recovery relies on: the answer is no exactly when every enqueued turn has ended and no
     * pump is left; then no outcome waits either.
     */
    method IsBusy() returns (busy: bool)
      requires Valid()
      ensures busy <==> |ended| < |enqueued| || chain != []
      ensures !busy ==> forall i | 0 <= i < |enqueued| :: ended[i].turnId == enqueued[i].turnId
      ensures !busy ==> outcomes == {}
    {
      busy := running || |queue| > 0;
      if !busy {
        assert started == enqueued;
        assert Outcomes(Now());
      }
    }

    method SettleSelfOutcome(turnId: nat, sent: nat)
      modifies this`outcomes, this`settled
      ensures Now() == SettleSelf(old(Now()), turnId, sent)
    {
      if turnId in outcomes {
        outcomes := outcomes - {turnId};
        settled := settled + [Settled(turnId, sent)];
      }
    }

    method MoveTo(pump: Pump)
      requires chain != []
      modifies this`chain
      ensures Now() == At(old(Now()), pump)
    {
      chain := [pump] + chain[1..];
    }

    method PumpShift()
      requires Valid() && Enabled(Now(), Shift)
      modifies this
      ensures Valid() && Now() == Step(old(Now()), Shift)
    {
      StepKeepsInv(Now(), Shift);
      if |queue| == 0 {
        MoveTo(Emptied);
        return;
      }
      var item := queue[0];
      queue := queue[1..];
      started := started + [item];
      MoveTo(InTurn(item, Preparing));
    }

    method FinishPump()
      requires Valid() && Enabled(Now(), PumpFinished)
      modifies this
      ensures Valid() && Now() == Step(old(Now()), PumpFinished)
    {
      chain := chain[1..];
      running := false;
      StepKeepsInv(old(Now()), PumpFinished);
    }

    method TakeCarry(item: Item)
      requires chain != []
      modifies this`carry, this`handovers, this`chain
      ensures Now() == ConsumeCarry(old(Now()), item)
    {
      var inherited := carry;
      if carry.Some? {
        handovers := handovers + [Handover(carry.value, item.turnId)];
      }
      carry := None;
      MoveTo(InTurn(item, Deliberating(inherited)));
    }

    /** After the affect tick and the embedding: link the interrupted inbound if another turn inherits it, else take the carry. */
    method AfterPrepare()
      requires Valid() && Enabled(Now(), Prepared)
      modifies this
      ensures Valid() && Now() == Step(old(Now()), Prepared)
    {
      var item := chain[0].item;
      if carry.Some? && carry.value.fromUpdate != item.updateId {
        MoveTo(InTurn(item, LinkingCarry(carry.value.fromUpdate)));
      } else {
        TakeCarry(item);
      }
      StepKeepsInv(old(Now()), Prepared);
    }

    method AfterCarryLink()
      requires Valid() && Enabled(Now(), CarryLinked)
      modifies this
      ensures Valid() && Now() == Step(old(Now()), CarryLinked)
    {
      var item := chain[0].item;
      links := links + [Linked(chain[0].stage.updateId, item.turnId)];
      TakeCarry(item);
      StepKeepsInv(old(Now()), CarryLinked);
    }

    method AfterLoop(bubbles: seq<string>)
      requires Valid() && Enabled(Now(), Decided(bubbles))
      modifies this
      ensures Valid() && Now() == Step(old(Now()), Decided(bubbles))
    {
      var item := chain[0].item;
      decisions := decisions[item.turnId := bubbles];
      MoveTo(InTurn(item, Deciding(bubbles)));
      StepKeepsInv(old(Now()), Decided(bubbles));
    }

    method SetCarry(item: Item, left: seq<string>, sent: nat)
      requires chain != []
      modifies this`armed, this`carry, this`chain
      ensures Now() == FillCarry(old(Now()), item, left, sent)
    {
      armed := false;
      carry := Some(Carry(left, item.updateId, item.turnId));
      MoveTo(InTurn(item, Deferring(sent)));
    }

    /** Nothing to send settles silently; newer words already queued carry everything over; else the send is armed. */
    method AfterDecisionRow()
      requires Valid() && Enabled(Now(), DecisionRecorded)
      modifies this
      ensures Valid() && Now() == Step(old(Now()), DecisionRecorded)
    {
      var item, bubbles := chain[0].item, chain[0].stage.bubbles;
      if |bubbles| == 0 {
        MoveTo(InTurn(item, SettlingSilent));
      } else if |queue| > 0 {
        SetCarry(item, bubbles, 0);
      } else {
        armed, aborted := true, false;
        MoveTo(InTurn(item, Realizing(shape(bubbles), 0)));
      }
      StepKeepsInv(old(Now()), DecisionRecorded);
    }

    method AfterSend()
      requires Valid() && Enabled(Now(), SentOne)
      modifies this
      ensures Valid() && Now() == Step(old(Now()), SentOne)
    {
      ghost var was := Now();
      var item, st := chain[0].item, chain[0].stage;
      sends := sends + [Send(item.turnId, st.left[0])];
      MoveTo(InTurn(item, Recording(st.left[1..], st.sent + 1)));
      assert Now() == Step(was, SentOne);
      StepKeepsInv(was, SentOne);
    }

    method AfterRecord()
      requires Valid() && Enabled(Now(), SendRecorded)
      modifies this
      ensures Valid() && Now() == Step(old(Now()), SendRecorded)
    {
      var st := chain[0].stage;
      MoveTo(InTurn(chain[0].item, Realizing(st.left, st.sent)));
      StepKeepsInv(old(Now()), SendRecorded);
    }

    /** The outcome settles with what was sent; the window bookkeeping is left. */
    method SettleAs(item: Item, sent: nat)
      requires chain != []
      modifies this`outcomes, this`settled, this`chain
      ensures Now() == At(SettleSelf(old(Now()), item.turnId, sent), InTurn(item, SettlingDone(sent)))
    {
      SettleSelfOutcome(item.turnId, sent);
      MoveTo(InTurn(item, SettlingDone(sent)));
    }

    method AfterRealize(reportsAbort: bool)
      requires Valid() && Enabled(Now(), RealizeReturned(reportsAbort))
      modifies this
      ensures Valid() && Now() == Step(old(Now()), RealizeReturned(reportsAbort))
    {
      ghost var was := Now();
      var item, st := chain[0].item, chain[0].stage;
      armed := false;
      if reportsAbort && |st.left| > 0 {
        SetCarry(item, st.left, st.sent);
      } else {
        SettleAs(item, st.sent);
      }
      assert Now() == Step(was, RealizeReturned(reportsAbort));
      StepKeepsInv(was, RealizeReturned(reportsAbort));
    }

    method AfterDeferRow()
      requires Valid() && Enabled(Now(), DeferRecorded)
      modifies this
      ensures Valid() && Now() == Step(old(Now()), DeferRecorded)
    {
      var item, sent := chain[0].item, chain[0].stage.sent;
      SettleAs(item, sent);
      StepKeepsInv(old(Now()), DeferRecorded);
    }

    method AfterWindow()
      requires Valid() && Enabled(Now(), WindowSettled)
      modifies this
      ensures Valid() && Now() == Step(old(Now()), WindowSettled)
    {
      var item, st := chain[0].item, chain[0].stage;
      if st.SettlingSilent? {
        SettleSelfOutcome(item.turnId, 0);
      }
      FinishTurn(item, SentSoFar(st), false);
      StepKeepsInv(old(Now()), WindowSettled);
    }

    /** The pump's catch: a dead turn settles at 0 and the pump goes on. */
    method TurnFailed()
      requires Valid() && Enabled(Now(), Threw)
      modifies this
      ensures Valid() && Now() == Step(old(Now()), Threw)
    {
      var item, st := chain[0].item, chain[0].stage;
      SettleSelfOutcome(item.turnId, 0);
      FinishTurn(item, SentSoFar(st), true);
      StepKeepsInv(old(Now()), Threw);
    }
  }
}
