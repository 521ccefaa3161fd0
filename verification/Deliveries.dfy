/**
 * What becomes of a decided reply: over every run of the pipeline, what the channel took and what
 * was carried over are together the bubbles the turn set out to send, in order.
 */
module Deliveries {
  import opened Orders
  import opened PipelineRuns

  /** The bubbles the channel took of one turn, in the order it took them. */
  function TextsOf(sends: seq<Send>, t: nat): seq<string>
    decreases |sends|
  {
    if sends == [] then []
    else
      var last := sends[|sends| - 1];
      TextsOf(sends[..|sends| - 1], t) + (if last.turnId == t then [last.text] else [])
  }

  lemma TextsOfNext(sends: seq<Send>, x: Send, t: nat)
    ensures TextsOf(sends + [x], t) == if x.turnId == t then TextsOf(sends, t) + [x.text] else TextsOf(sends, t)
  {
    assert (sends + [x])[..|sends|] == sends;
  }

  lemma {:induction false} NoTexts(sends: seq<Send>, t: nat)
    requires forall x | x in sends :: x.turnId != t
    ensures TextsOf(sends, t) == []
    decreases |sends|
  {
    if sends != [] {
      assert sends[|sends| - 1] in sends;
      NoTexts(sends[..|sends| - 1], t);
    }
  }

  // ---------------------------------------------------------------------------
  // What a turn sets out to send
  // ---------------------------------------------------------------------------

  /** What happened to replies so far. */
  datatype History = History(shape: Shaper, enqueued: seq<Item>, decisions: map<nat, seq<string>>, sends: seq<Send>)

  ghost function HistoryOf(s: State): History {
    History(s.shape, s.enqueued, s.decisions, s.sends)
  }

  ghost predicate SentPart(h: History, t: nat, rest: seq<string>) {
    t in h.decisions && TextsOf(h.sends, t) + rest == h.shape(h.decisions[t])
  }

  /**
   * The list is all that the channel did not take of the turn's reply: the bubbles after those it
   * took, or the decided bubbles as they are when the send never began.
   */
  ghost predicate IsTheRest(h: History, t: nat, rest: seq<string>) {
    || SentPart(h, t, rest)
    || (t in h.decisions && TextsOf(h.sends, t) == [] && rest == h.decisions[t])
  }

  ghost predicate IsRestOf(h: History, c: Carry) {
    && c.bubbles != []
    && c.fromTurn < |h.enqueued| && c.fromUpdate == h.enqueued[c.fromTurn].updateId
    && IsTheRest(h, c.fromTurn, c.bubbles)
  }

  predicate CarriedFrom(carry: Option<Carry>, handovers: seq<Handover>, t: nat) {
    || (carry.Some? && carry.value.fromTurn == t)
    || exists h | h in handovers :: h.given.fromTurn == t
  }

  predicate LetGo(s: State, t: nat) {
    CarriedFrom(s.carry, s.handovers, t)
  }

  /** What the stage of the turn in flight knows of its own reply. */
  ghost predicate StageKeeps(h: History, carry: Option<Carry>, handovers: seq<Handover>, cur: nat, stage: Stage) {
    match stage
    case Preparing => cur !in h.decisions
    case LinkingCarry(u) =>
      && cur !in h.decisions
      && carry.Some? && carry.value.fromUpdate == u && cur < |h.enqueued| && h.enqueued[cur].updateId != u
    case Deliberating(inherited) =>
      && cur !in h.decisions
      && (match inherited
          case None => forall x | x in handovers :: x.toTurn != cur
          case Some(c) => handovers != [] && handovers[|handovers| - 1] == Handover(c, cur))
    case Deciding(bubbles) => cur in h.decisions && h.decisions[cur] == bubbles && TextsOf(h.sends, cur) == []
    case SettlingSilent => cur in h.decisions && h.decisions[cur] == [] && TextsOf(h.sends, cur) == []
    case Realizing(left, sent) => SentPart(h, cur, left) && sent == |TextsOf(h.sends, cur)|
    case Recording(left, sent) => SentPart(h, cur, left) && sent == |TextsOf(h.sends, cur)|
    case Deferring(sent) =>
      cur in h.decisions && sent == |TextsOf(h.sends, cur)| && carry.Some? && carry.value.fromTurn == cur
    case SettlingDone(sent) =>
      && sent == |TextsOf(h.sends, cur)|
      && (SentPart(h, cur, []) || (cur in h.decisions && carry.Some? && carry.value.fromTurn == cur))
  }

  /** A turn that ended on its own said nothing, sent its whole reply, or let go of the rest of it. */
  ghost predicate Answered(h: History, carry: Option<Carry>, handovers: seq<Handover>, t: nat) {
    && t in h.decisions
    && (|| (h.decisions[t] == [] && TextsOf(h.sends, t) == [])
        || SentPart(h, t, [])
        || CarriedFrom(carry, handovers, t))
  }

  ghost predicate EndKeeps(h: History, carry: Option<Carry>, handovers: seq<Handover>, e: End) {
    && e.sent == |TextsOf(h.sends, e.turnId)|
    && (e.died || Answered(h, carry, handovers, e.turnId))
  }

  ghost predicate Told(h: History, past: nat) {
    && (forall t | t in h.decisions :: t < past)
    && (forall x | x in h.sends :: x.turnId in h.decisions)
  }

  ghost predicate Rests(h: History, carry: Option<Carry>, handovers: seq<Handover>) {
    && (carry.Some? ==> IsRestOf(h, carry.value))
    && (forall x | x in handovers :: IsRestOf(h, x.given))
  }

  ghost predicate Ends(h: History, carry: Option<Carry>, handovers: seq<Handover>, ended: seq<End>) {
    forall e | e in ended :: EndKeeps(h, carry, handovers, e)
  }

  /** A live send is armed, and it was interrupted only if newer words are queued. */
  predicate LiveSend(s: State) {
    AtStage(s) && (s.chain[0].stage.Realizing? || s.chain[0].stage.Recording?) ==>
      s.armed && (s.aborted ==> s.queue != [])
  }

  predicate InheritsFromAnother(enqueued: seq<Item>, x: Handover) {
    x.toTurn < |enqueued| && x.given.fromUpdate != enqueued[x.toTurn].updateId
  }

  function LinkOf(x: Handover): Linked {
    Linked(x.given.fromUpdate, x.toTurn)
  }

  /** The link rows are those of the lists handed to a turn of another update. */
  ghost predicate LinksKeep(enqueued: seq<Item>, handovers: seq<Handover>, links: seq<Linked>) {
    && (forall x | x in handovers :: x.toTurn < |enqueued|)
    && (forall l :: l in links <==> exists x | x in handovers :: InheritsFromAnother(enqueued, x) && LinkOf(x) == l)
  }

  ghost predicate Keeps(s: State) {
    KeepsReplies(s) && LinksKeep(s.enqueued, s.handovers, s.links)
  }

  ghost predicate KeepsReplies(s: State) {
    var h := HistoryOf(s);
    && Told(h, |s.ended| + (if AtStage(s) then 1 else 0))
    && Rests(h, s.carry, s.handovers)
    && Ends(h, s.carry, s.handovers, s.ended)
    && (AtStage(s) ==> StageKeeps(h, s.carry, s.handovers, |s.ended|, s.chain[0].stage))
    && LiveSend(s)
  }

  // ---------------------------------------------------------------------------
  // Earlier turns are not touched
  // ---------------------------------------------------------------------------

  /** The history of every turn before `past` is the same in both. */
  ghost predicate SameBefore(h: History, g: History, past: nat) {
    && g.shape == h.shape
    && h.enqueued <= g.enqueued
    && (forall t: nat | t < past :: TextsOf(g.sends, t) == TextsOf(h.sends, t))
    && (forall t: nat | t < past :: t in g.decisions <==> t in h.decisions)
    && (forall t: nat | t < past && t in h.decisions :: g.decisions[t] == h.decisions[t])
  }

  lemma RestsStay(h: History, g: History, carry: Option<Carry>, handovers: seq<Handover>, past: nat)
    requires Rests(h, carry, handovers) && SameBefore(h, g, past)
    requires carry.Some? ==> carry.value.fromTurn < past
    requires forall x | x in handovers :: x.given.fromTurn < past
    ensures Rests(g, carry, handovers)
  {
    forall c: Carry | c.fromTurn < past && IsRestOf(h, c) ensures IsRestOf(g, c) {
      assert g.enqueued[c.fromTurn] == h.enqueued[c.fromTurn];
    }
  }

  lemma EndsStay(h: History, g: History, carry: Option<Carry>, handovers: seq<Handover>,
                 carry2: Option<Carry>, handovers2: seq<Handover>, ended: seq<End>, past: nat)
    requires Ends(h, carry, handovers, ended) && SameBefore(h, g, past)
    requires forall e | e in ended :: e.turnId < past
    requires forall t | CarriedFrom(carry, handovers, t) :: CarriedFrom(carry2, handovers2, t)
    ensures Ends(g, carry2, handovers2, ended)
  {
    forall e | e in ended ensures EndKeeps(g, carry2, handovers2, e) {
      assert EndKeeps(h, carry, handovers, e);
    }
  }

  lemma SameHistory(h: History, past: nat)
    ensures SameBefore(h, h, past)
  {
  }

  /** Every list handed over came from a turn before the one in flight. */
  lemma GiversAreEarlier(s: State)
    requires Inv(s)
    ensures forall x | x in s.handovers :: x.given.fromTurn < |s.ended|
    ensures AtStage(s) && !BeforeConsume(s.chain[0].stage) ==> forall x | x in s.handovers :: x.toTurn <= |s.ended|
    ensures !AtStage(s) || BeforeConsume(s.chain[0].stage) ==> forall x | x in s.handovers :: x.toTurn < |s.ended|
  {
  }

  lemma NothingSentYet(s: State)
    requires Keeps(s) && |s.ended| !in s.decisions
    ensures TextsOf(s.sends, |s.ended|) == []
  {
    NoTexts(s.sends, |s.ended|);
  }

  // ---------------------------------------------------------------------------
  // Each step
  // ---------------------------------------------------------------------------

  lemma ArrivalKeeps(s: State, e: Event)
    requires Inv(s) && Keeps(s) && Enabled(s, e) && (e.Arrive? || e.SelfArrive?)
    ensures Keeps(Step(s, e))
  {
    var t := Step(s, e);
    ArrivalFlight(s, e);
    QueuedKeeps(s, t.enqueued);
    assert HistoryOf(t) == HistoryOf(s).(enqueued := t.enqueued) && t.carry == s.carry;
    assert t.handovers == s.handovers && t.ended == s.ended;
    assert LiveSend(t) by { assert t.queue != []; }
    LinksQueued(s.enqueued, t.enqueued, s.handovers, s.links);
  }

  lemma LinksQueued(enqueued: seq<Item>, longer: seq<Item>, handovers: seq<Handover>, links: seq<Linked>)
    requires LinksKeep(enqueued, handovers, links) && enqueued <= longer
    ensures LinksKeep(longer, handovers, links)
  {
    forall x | x in handovers ensures InheritsFromAnother(longer, x) <==> InheritsFromAnother(enqueued, x) {
      assert longer[x.toTurn] == enqueued[x.toTurn];
    }
  }

  lemma LinksNext(enqueued: seq<Item>, handovers: seq<Handover>, links: seq<Linked>, x: Handover)
    requires LinksKeep(enqueued, handovers, links) && x.toTurn < |enqueued|
    ensures LinksKeep(enqueued, handovers + [x], if InheritsFromAnother(enqueued, x) then links + [LinkOf(x)] else links)
  {
    var more := handovers + [x];
    assert more[|handovers|] == x;
    assert forall y :: y in more <==> y in handovers || y == x;
    var linked := if InheritsFromAnother(enqueued, x) then links + [LinkOf(x)] else links;
    assert forall l :: l in linked <==> l in links || (InheritsFromAnother(enqueued, x) && l == LinkOf(x));
    forall l ensures l in linked <==> exists y | y in more :: InheritsFromAnother(enqueued, y) && LinkOf(y) == l {
      if l in links {
        var y :| y in handovers && InheritsFromAnother(enqueued, y) && LinkOf(y) == l;
        assert y in more;
      }
    }
  }

  lemma QueuedKeeps(s: State, longer: seq<Item>)
    requires Inv(s) && Keeps(s) && s.enqueued <= longer
    ensures var g := HistoryOf(s).(enqueued := longer);
            && Told(g, |s.ended| + (if AtStage(s) then 1 else 0)) && Rests(g, s.carry, s.handovers)
            && Ends(g, s.carry, s.handovers, s.ended)
            && (AtStage(s) ==> StageKeeps(g, s.carry, s.handovers, |s.ended|, s.chain[0].stage))
  {
    var h, g, past := HistoryOf(s), HistoryOf(s).(enqueued := longer), |s.enqueued|;
    assert SameBefore(h, g, past);
    RestsStay(h, g, s.carry, s.handovers, past);
    assert |s.ended| <= |s.enqueued|;
    EndsStay(h, g, s.carry, s.handovers, s.carry, s.handovers, s.ended, past);
  }

  lemma PumpKeeps(s: State, e: Event)
    requires Inv(s) && Keeps(s) && Enabled(s, e) && (e.Shift? || e.PumpFinished?)
    ensures Keeps(Step(s, e))
  {
    assert |s.ended| !in s.decisions;
  }

  lemma ConsumeKeeps(s: State)
    requires Inv(s) && KeepsReplies(s) && AtStage(s) && BeforeConsume(s.chain[0].stage)
    ensures KeepsReplies(ConsumeCarry(s, s.chain[0].item))
  {
    Current(s);
    GiversAreEarlier(s);
    var h, item, t := HistoryOf(s), s.chain[0].item, ConsumeCarry(s, s.chain[0].item);
    assert forall x | x in t.handovers :: x in s.handovers || (s.carry.Some? && x == Handover(s.carry.value, item.turnId));
    if s.carry.Some? {
      assert t.handovers[|s.handovers|] == Handover(s.carry.value, item.turnId);
    }
    forall k | CarriedFrom(s.carry, s.handovers, k) ensures CarriedFrom(t.carry, t.handovers, k) {
      if x :| x in s.handovers && x.given.fromTurn == k {
        assert x in t.handovers;
      }
    }
    SameHistory(h, |s.ended|);
    EndsStay(h, h, s.carry, s.handovers, t.carry, t.handovers, s.ended, |s.ended|);
  }

  lemma PrepareKeeps(s: State, e: Event)
    requires Inv(s) && Keeps(s) && Enabled(s, e) && (e.Prepared? || e.CarryLinked?)
    ensures Keeps(Step(s, e))
  {
    Current(s);
    var item := s.chain[0].item;
    assert item == s.enqueued[|s.ended|];
    if s.carry.Some? {
      LinksNext(s.enqueued, s.handovers, s.links, Handover(s.carry.value, item.turnId));
    }
    ConsumeKeeps(if e.Prepared? then s else s.(links := s.links + [Linked(s.chain[0].stage.updateId, item.turnId)]));
  }

  lemma DecidedKeeps(s: State, e: Event)
    requires Inv(s) && Keeps(s) && Enabled(s, e) && e.Decided?
    ensures Keeps(Step(s, e))
  {
    Current(s);
    GiversAreEarlier(s);
    NothingSentYet(s);
    var t := Step(s, e);
    var h, g := HistoryOf(s), HistoryOf(t);
    assert SameBefore(h, g, |s.ended|);
    RestsStay(h, g, s.carry, s.handovers, |s.ended|);
    EndsStay(h, g, s.carry, s.handovers, t.carry, t.handovers, s.ended, |s.ended|);
  }

  lemma FillKeeps(s: State, item: Item, left: seq<string>, sent: nat)
    requires Inv(s) && Keeps(s) && AtStage(s) && item == s.chain[0].item && HoldsNoCarry(s.chain[0].stage)
    requires left != [] && sent == |TextsOf(s.sends, |s.ended|)| && IsTheRest(HistoryOf(s), |s.ended|, left)
    ensures Keeps(FillCarry(s, item, left, sent))
  {
    Current(s);
    var h, t := HistoryOf(s), FillCarry(s, item, left, sent);
    assert s.started[|s.ended|] == s.enqueued[|s.ended|];
    forall k | CarriedFrom(s.carry, s.handovers, k) ensures CarriedFrom(t.carry, t.handovers, k) {}
    SameHistory(h, |s.ended|);
    EndsStay(h, h, s.carry, s.handovers, t.carry, t.handovers, s.ended, |s.ended|);
  }

  lemma WholeIsSent(h: History, t: nat)
    requires t in h.decisions && TextsOf(h.sends, t) == []
    ensures SentPart(h, t, h.shape(h.decisions[t]))
  {
    assert [] + h.shape(h.decisions[t]) == h.shape(h.decisions[t]);
  }

  lemma DecisionRecordedKeeps(s: State)
    requires Inv(s) && Keeps(s) && Enabled(s, DecisionRecorded)
    ensures Keeps(Step(s, DecisionRecorded))
  {
    Current(s);
    var item, bubbles := s.chain[0].item, s.chain[0].stage.bubbles;
    if bubbles != [] && s.queue != [] {
      FillKeeps(s, item, bubbles, 0);
    } else {
      WholeIsSent(HistoryOf(s), |s.ended|);
    }
  }

  lemma SentKeeps(s: State)
    requires Inv(s) && Keeps(s) && Enabled(s, SentOne)
    ensures Keeps(Step(s, SentOne))
  {
    Current(s);
    GiversAreEarlier(s);
    var t, cur, st := Step(s, SentOne), |s.ended|, s.chain[0].stage;
    var h, g := HistoryOf(s), HistoryOf(t);
    forall k: nat ensures TextsOf(g.sends, k) == if k == cur then TextsOf(h.sends, k) + [st.left[0]] else TextsOf(h.sends, k) {
      TextsOfNext(h.sends, Send(cur, st.left[0]), k);
    }
    assert SameBefore(h, g, cur);
    RestsStay(h, g, s.carry, s.handovers, cur);
    EndsStay(h, g, s.carry, s.handovers, t.carry, t.handovers, s.ended, cur);
    OneMore(TextsOf(h.sends, cur), st.left);
  }

  lemma OneMore(sent: seq<string>, left: seq<string>)
    requires left != []
    ensures sent + [left[0]] + left[1..] == sent + left
  {
  }

  lemma ReturnKeeps(s: State, e: Event)
    requires Inv(s) && Keeps(s) && Enabled(s, e) && e.RealizeReturned?
    ensures Keeps(Step(s, e))
  {
    Current(s);
    var item, st := s.chain[0].item, s.chain[0].stage;
    if e.reportsAbort && st.left != [] {
      FillKeeps(s, item, st.left, st.sent);
    }
  }

  lemma EndKeepsAll(s: State, e: Event)
    requires Inv(s) && Keeps(s) && Enabled(s, e) && (e.WindowSettled? || e.Threw?)
    ensures Keeps(Step(s, e))
  {
    Current(s);
    EndFlight(s, e);
    var t, cur, st := Step(s, e), |s.ended|, s.chain[0].stage;
    if cur !in s.decisions {
      NothingSentYet(s);
    }
    assert EndKeeps(HistoryOf(s), s.carry, s.handovers, End(cur, SentSoFar(st), e.Threw?));
    assert forall x | x in t.ended :: x in s.ended || x == End(cur, SentSoFar(st), e.Threw?);
  }

  lemma StepKeeps(s: State, e: Event)
    requires Inv(s) && Keeps(s) && Enabled(s, e)
    ensures Keeps(Step(s, e))
  {
    match e {
      case Arrive(_) => ArrivalKeeps(s, e);
      case SelfArrive => ArrivalKeeps(s, e);
      case Shift => PumpKeeps(s, e);
      case PumpFinished => PumpKeeps(s, e);
      case Prepared => PrepareKeeps(s, e);
      case CarryLinked => PrepareKeeps(s, e);
      case Decided(_) => DecidedKeeps(s, e);
      case DecisionRecorded => DecisionRecordedKeeps(s);
      case SentOne => SentKeeps(s);
      case SendRecorded =>
        Current(s);
      case RealizeReturned(_) => ReturnKeeps(s, e);
      case DeferRecorded =>
        Current(s);
      case WindowSettled => EndKeepsAll(s, e);
      case Threw => EndKeepsAll(s, e);
    }
  }

  // ---------------------------------------------------------------------------
  // Every run
  // ---------------------------------------------------------------------------

  lemma {:induction false} RunKeeps(s: State, run: seq<Event>, t: State)
    requires Inv(s) && Keeps(s) && Runs(s, run, t)
    ensures Keeps(t)
    decreases |run|
  {
    if run != [] {
      StepKeepsInv(s, run[0]);
      StepKeeps(s, run[0]);
      RunKeeps(Step(s, run[0]), run[1..], t);
    }
  }

  lemma ReachableKeeps(s: State)
    requires Reachable(s)
    ensures Inv(s) && Keeps(s)
  {
    ReachableInv(s);
    IdleInv(s.shape);
    var run :| Runs(Idle(s.shape), run, s);
    RunKeeps(Idle(s.shape), run, s);
  }

  /**
   * Whenever the slot holds a list, it is what the channel did not take of the reply of the turn
   * that left it, in order and not empty, under the update that turn answers.
   */
  lemma SlotHoldsTheRest(s: State)
    requires Reachable(s) && s.carry.Some?
    ensures var c := s.carry.value; var said := TextsOf(s.sends, c.fromTurn);
            && c.fromTurn < |s.enqueued| && c.fromUpdate == s.enqueued[c.fromTurn].updateId
            && c.bubbles != [] && c.fromTurn in s.decisions
            && (said + c.bubbles == s.shape(s.decisions[c.fromTurn])
                || (said == [] && c.bubbles == s.decisions[c.fromTurn]))
  {
    ReachableKeeps(s);
  }

  /**
   * A step fills the slot exactly when a reply meets newer words already queued, or an interrupted
   * send leaves some of it. Then the reply is what was said and what the slot holds, newer words are
   * queued to take it, and the update is the one the turn answers.
   */
  lemma FilledWithTheRest(s: State, e: Event)
    requires Reachable(s) && Enabled(s, e)
    ensures var t, cur := Step(s, e), |s.ended|;
            var said := TextsOf(t.sends, cur);
            && (s.carry.None? && t.carry.Some? <==>
                AtStage(s) && cur in s.decisions
                && (|| (e.DecisionRecorded? && s.decisions[cur] != [] && s.queue != [])
                    || (e.RealizeReturned? && e.reportsAbort && said != s.shape(s.decisions[cur]))))
            && (s.carry.None? && t.carry.Some? ==>
                && t.carry.value.fromTurn == cur < |s.enqueued| && t.carry.value.fromUpdate == s.enqueued[cur].updateId
                && t.queue != []
                && (if e.DecisionRecorded? then said == [] && t.carry.value.bubbles == s.decisions[cur]
                    else said + t.carry.value.bubbles == s.shape(s.decisions[cur])))
  {
    ReachableKeeps(s);
    if AtStage(s) {
      Current(s);
      assert s.started[|s.ended|] == s.enqueued[|s.ended|];
      if e.RealizeReturned? {
        RestIsEmpty(TextsOf(s.sends, |s.ended|), s.chain[0].stage.left);
      }
    }
  }

  lemma RestIsEmpty(said: seq<string>, left: seq<string>)
    ensures said == said + left <==> left == []
  {
    assert left != [] ==> |said + left| > |said|;
  }

  /**
   * What is in the slot stays there as it is until a turn starts deliberating; that turn has it
   * before it, and the slot is empty.
   */
  ghost predicate StaysUntilTaken(s: State, t: State) {
    && (s.carry.Some? && t.carry != s.carry ==> AtStage(t) && t.chain[0].stage.Deliberating?)
    && (AtStage(t) && t.chain[0].stage.Deliberating? && !(AtStage(s) && s.chain[0].stage.Deliberating?) ==>
        && t.chain[0].stage.inherited == s.carry && t.carry.None?
        && t.handovers == s.handovers + (if s.carry.Some? then [Handover(s.carry.value, |s.ended|)] else []))
  }

  lemma CarriedUntilTaken(s: State, e: Event)
    requires Reachable(s) && Enabled(s, e)
    ensures StaysUntilTaken(s, Step(s, e))
  {
    ReachableKeeps(s);
    match e {
      case Prepared => TakenBy(s, e);
      case CarryLinked => TakenBy(s, e);
      case Decided(_) =>
      case SentOne => SetupStep(s, e);
      case SendRecorded => SetupStep(s, e);
      case DecisionRecorded => DeliveryStep(s, e);
      case RealizeReturned(_) => DeliveryStep(s, e);
      case DeferRecorded => DeliveryStep(s, e);
      case WindowSettled => EndFlight(s, e);
      case Threw => EndFlight(s, e);
      case Arrive(_) => ArrivalFlight(s, e);
      case SelfArrive => ArrivalFlight(s, e);
      case Shift =>
      case PumpFinished =>
    }
  }

  lemma TakenBy(s: State, e: Event)
    requires Inv(s) && Enabled(s, e) && (e.Prepared? || e.CarryLinked?)
    ensures StaysUntilTaken(s, Step(s, e))
  {
    Current(s);
  }

  /** A turn deliberates on a list exactly when one was handed to it, and then on the whole rest of the giver's reply. */
  lemma DeliberatesOnTheRest(s: State)
    requires Reachable(s) && AtStage(s) && s.chain[0].stage.Deliberating?
    ensures var inherited := s.chain[0].stage.inherited;
            && (inherited.Some? <==> exists x | x in s.handovers :: x.toTurn == |s.ended|)
            && (inherited.Some? ==>
                var c := inherited.value; var said := TextsOf(s.sends, c.fromTurn);
                && Handover(c, |s.ended|) in s.handovers
                && c.fromTurn < |s.ended| < |s.enqueued| && c.fromUpdate == s.enqueued[c.fromTurn].updateId && c.bubbles != []
                && c.fromTurn in s.decisions
                && (said + c.bubbles == s.shape(s.decisions[c.fromTurn])
                    || (said == [] && c.bubbles == s.decisions[c.fromTurn])))
  {
    ReachableKeeps(s);
    if s.chain[0].stage.inherited.Some? {
      var last := s.handovers[|s.handovers| - 1];
      assert last in s.handovers && last.toTurn == |s.ended|;
    }
  }

  /**
   * No reply goes missing: each turn that ended without a throw decided on nothing, or sent all of
   * its reply in order, or left the rest of it, still in the slot or handed to a later turn.
   */
  lemma RepliesAreAccountedFor(s: State, t: nat)
    requires Reachable(s) && t < |s.ended| && !s.ended[t].died
    ensures t in s.decisions
    ensures || (s.decisions[t] == [] && TextsOf(s.sends, t) == [])
            || TextsOf(s.sends, t) == s.shape(s.decisions[t])
            || (s.carry.Some? && s.carry.value.fromTurn == t)
            || exists x | x in s.handovers :: x.given.fromTurn == t
  {
    ReachableKeeps(s);
    var e := s.ended[t];
    assert e in s.ended && e.turnId == t;
    assert EndKeeps(HistoryOf(s), s.carry, s.handovers, e);
    assert TextsOf(s.sends, t) + [] == TextsOf(s.sends, t);
  }

  /** A turn's end counts the bubbles the channel took of it. */
  lemma EndCountsSends(s: State, t: nat)
    requires Reachable(s) && t < |s.ended|
    ensures s.ended[t].sent == |TextsOf(s.sends, t)|
  {
    ReachableKeeps(s);
    assert s.ended[t] in s.ended && s.ended[t].turnId == t;
    assert EndKeeps(HistoryOf(s), s.carry, s.handovers, s.ended[t]);
  }

  lemma StageCounts(s: State)
    requires Inv(s) && Keeps(s) && AtStage(s)
    ensures SentSoFar(s.chain[0].stage) == |TextsOf(s.sends, |s.ended|)|
  {
    if |s.ended| !in s.decisions {
      NothingSentYet(s);
    }
  }

  /**
   * The settled number is the number of bubbles the channel took, except on a turn that throws
   * after a send, be it in writing the row of that very send: its outcome settles at 0.
   */
  lemma OutcomeCountsSends(s: State, e: Event)
    requires Reachable(s) && Enabled(s, e) && |Step(s, e).settled| > |s.settled|
    ensures var x, said := Step(s, e).settled[|s.settled|], TextsOf(s.sends, |s.ended|);
            x.turnId == |s.ended| && (if e.Threw? then x.count == 0 else x.count == |said|)
  {
    ReachableKeeps(s);
    OutcomeCountsDelivered(s, e);
    StageCounts(s);
  }

  /** An interrupted inbound is linked to the turn that inherits its reply exactly when that turn answers another one. */
  lemma InterruptedIsLinked(s: State, u: int, t: nat)
    requires Reachable(s)
    ensures Linked(u, t) in s.links <==>
            t < |s.enqueued| && u != s.enqueued[t].updateId
            && exists x | x in s.handovers :: x.toTurn == t && x.given.fromUpdate == u
  {
    ReachableKeeps(s);
    if x :| x in s.handovers && x.toTurn == t && x.given.fromUpdate == u {
      assert LinkOf(x) == Linked(u, t);
    }
  }

  /** His words interrupt a live send, hers do not, and a send that was interrupted has newer words waiting. */
  lemma OnlyHisWordsInterrupt(s: State, u: int)
    requires Reachable(s) && AtStage(s) && (s.chain[0].stage.Realizing? || s.chain[0].stage.Recording?)
    ensures Step(s, Arrive(u)).aborted && Step(s, SelfArrive).aborted == s.aborted
    ensures s.aborted ==> s.queue != []
  {
    ReachableKeeps(s);
  }
}
