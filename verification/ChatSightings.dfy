/**
 * The two sightings the fold keeps of each chat against all the chat's rows: what is kept, and
 * exactly when two are enough to tell that the chat moved on.
 */
module ChatSightings {
  import opened Orders
  import opened LedgerRows
  import opened LedgerFold
  import opened LedgerRuns
  import opened MessageLedger

  // ---------------------------------------------------------------------------
  // The stable sort, one element later
  // ---------------------------------------------------------------------------

  function InsertLast<T>(le: (T, T) -> bool, s: seq<T>, x: T): seq<T> {
    if s == [] || !le(s[0], x) then [x] + s else [s[0]] + InsertLast(le, s[1..], x)
  }

  lemma {:induction false} InsertsCommute<T(!new)>(le: (T, T) -> bool, h: T, s: seq<T>, x: T)
    requires TotalPreorder(le)
    ensures Insert(le, h, InsertLast(le, s, x)) == InsertLast(le, Insert(le, h, s), x)
  {
    if s != [] {
      assert ([x] + s)[1..] == s;
      if le(h, s[0]) {
        assert ([h] + s)[1..] == s;
      } else {
        var rest := Insert(le, h, s[1..]);
        assert ([s[0]] + rest)[1..] == rest;
        assert ([s[0]] + InsertLast(le, s[1..], x))[1..] == InsertLast(le, s[1..], x);
        InsertsCommute(le, h, s[1..], x);
      }
    }
  }

  lemma {:induction false} SortSnoc<T(!new)>(le: (T, T) -> bool, s: seq<T>, x: T)
    requires TotalPreorder(le)
    ensures SortBy(le, s + [x]) == InsertLast(le, SortBy(le, s), x)
  {
    if s == [] {
      assert [] + [x] == [x] && [x][1..] == [];
    } else {
      assert (s + [x])[1..] == s[1..] + [x];
      SortSnoc(le, s[1..], x);
      InsertsCommute(le, s[0], SortBy(le, s[1..]), x);
    }
  }

  /** The first `n` after an insertion depend on the first `n` before it only. */
  lemma {:induction false} InsertIntoTop<T>(le: (T, T) -> bool, s: seq<T>, x: T, n: nat)
    ensures Take(InsertLast(le, s, x), n) == Take(InsertLast(le, Take(s, n), x), n)
  {
    if n > 0 && s != [] && le(s[0], x) {
      InsertIntoTop(le, s[1..], x, n - 1);
      assert Take(s, n)[1..] == Take(s[1..], n - 1) && Take(s, n)[0] == s[0];
      TakeTail(s[0], InsertLast(le, s[1..], x), n);
      TakeTail(s[0], InsertLast(le, Take(s[1..], n - 1), x), n);
    } else if n > 0 && s != [] {
      TakeTail(x, s, n);
      TakeTail(x, Take(s, n), n);
      assert Take(Take(s, n), n - 1) == Take(s, n - 1);
    }
  }

  lemma TakeTail<T>(x: T, s: seq<T>, n: nat)
    requires n > 0
    ensures Take([x] + s, n) == [x] + Take(s, n - 1)
  {
  }

  // ---------------------------------------------------------------------------
  // What the fold keeps of a chat
  // ---------------------------------------------------------------------------

  predicate Sights(row: Row, chatId: int) {
    row.Inbound? && row.msg.skipped.None? && row.msg.chatId == chatId
  }

  /** The chat's arrivals that were not skipped, in row order. */
  function Sightings(log: seq<Row>, chatId: int): seq<Sighting>
    decreases |log|
  {
    if log == [] then []
    else
      var row := log[|log| - 1];
      Sightings(log[..|log| - 1], chatId)
      + (if Sights(row, chatId) then [Sighting(row.ts, row.msg.updateId)] else [])
  }

  /** The two newest of them, the earlier row first among equals. */
  function NewestTwo(log: seq<Row>, chatId: int): seq<Sighting> {
    Take(SortBy(NewestFirst, Sightings(log, chatId)), 2)
  }

  lemma NewestOrder()
    ensures TotalPreorder(NewestFirst)
  {
  }

  lemma TopTwoOfAll(all: seq<Sighting>, x: Sighting)
    ensures TopTwo(Take(SortBy(NewestFirst, all), 2), x) == Take(SortBy(NewestFirst, all + [x]), 2)
  {
    var sorted := SortBy(NewestFirst, all);
    var top := Take(sorted, 2);
    NewestOrder();
    SortSorted(NewestFirst, all);
    SortSnoc(NewestFirst, all, x);
    SortSnoc(NewestFirst, top, x);
    SortOfSorted(NewestFirst, top);
    InsertIntoTop(NewestFirst, sorted, x, 2);
  }

  ghost predicate KeepsNewest(tops: map<int, seq<Sighting>>, log: seq<Row>) {
    forall chat: int ::
      && (chat in tops <==> Sightings(log, chat) != [])
      && (chat in tops ==> tops[chat] == NewestTwo(log, chat))
  }

  lemma TopsOf(f: FoldState, row: Row, chatId: int)
    ensures var tops := Consume(f, row).inboundTop;
            if Sights(row, chatId) then
              chatId in tops &&
              tops[chatId] == TopTwo(if chatId in f.inboundTop then f.inboundTop[chatId] else [],
                                     Sighting(row.ts, row.msg.updateId))
            else (chatId in tops <==> chatId in f.inboundTop)
                 && (chatId in tops ==> tops[chatId] == f.inboundTop[chatId])
  {
  }

  lemma SightingsSnoc(log: seq<Row>, row: Row, chatId: int)
    ensures Sightings(log + [row], chatId) ==
            if Sights(row, chatId) then Sightings(log, chatId) + [Sighting(row.ts, row.msg.updateId)]
            else Sightings(log, chatId)
  {
    assert (log + [row])[..|log|] == log;
  }

  lemma KeepsNewestOf(f: FoldState, log: seq<Row>, row: Row, chatId: int)
    requires KeepsNewest(f.inboundTop, log)
    ensures var tops := Consume(f, row).inboundTop;
            && (chatId in tops <==> Sightings(log + [row], chatId) != [])
            && (chatId in tops ==> tops[chatId] == NewestTwo(log + [row], chatId))
  {
    TopsOf(f, row, chatId);
    SightingsSnoc(log, row, chatId);
    if Sights(row, chatId) {
      assert (if chatId in f.inboundTop then f.inboundTop[chatId] else []) == NewestTwo(log, chatId);
      TopTwoOfAll(Sightings(log, chatId), Sighting(row.ts, row.msg.updateId));
    }
  }

  lemma KeepsNewestStep(f: FoldState, log: seq<Row>, row: Row)
    requires KeepsNewest(f.inboundTop, log)
    ensures KeepsNewest(Consume(f, row).inboundTop, log + [row])
  {
    forall chat: int
      ensures chat in Consume(f, row).inboundTop <==> Sightings(log + [row], chat) != []
      ensures chat in Consume(f, row).inboundTop ==>
                Consume(f, row).inboundTop[chat] == NewestTwo(log + [row], chat)
    {
      KeepsNewestOf(f, log, row, chat);
    }
  }

  ghost predicate Remembers(s: Ledger) {
    Steady(s) && KeepsNewest(CatchUp(s).inboundTop, s.log)
  }

  lemma StepRemembers(s: Ledger, op: Op)
    requires Remembers(s) && Legal(s, op)
    ensures Remembers(Step(s, op))
  {
    StepCaught(s, op);
    LogOf(s, op);
    if AppendedBy(op).Some? {
      KeepsNewestStep(CatchUp(s), s.log, AppendedBy(op).value);
    }
  }

  lemma {:induction false} RunRemembers(s: Ledger, run: seq<Op>)
    requires Remembers(s) && LegalRun(s, run)
    ensures Remembers(Execute(s, run))
    decreases |run|
  {
    if run != [] {
      StepRemembers(s, run[0]);
      ExecuteFirst(s, run);
      RunRemembers(Step(s, run[0]), run[1..]);
    }
  }

  // ---------------------------------------------------------------------------
  // When two are enough
  // ---------------------------------------------------------------------------

  /** A row of the chat shows an arrival other than the given one, after the given time. */
  ghost predicate OtherSince(log: seq<Row>, chatId: int, afterTs: int, exclude: int) {
    exists row | row in log ::
      Sights(row, chatId) && row.msg.updateId != exclude && row.ts > afterTs
  }

  /** The two newest sightings of the chat are both of this update. */
  predicate HidesTheChat(log: seq<Row>, chatId: int, u: int) {
    var top := NewestTwo(log, chatId);
    |top| == 2 && top[0].updateId == u && top[1].updateId == u
  }

  lemma {:induction false} SightedRows(log: seq<Row>, chatId: int, afterTs: int, exclude: int)
    ensures OtherSince(log, chatId, afterTs, exclude) <==>
            exists e | e in Sightings(log, chatId) :: e.updateId != exclude && e.ts > afterTs
    decreases |log|
  {
    if log != [] {
      var init, row := log[..|log| - 1], log[|log| - 1];
      SightedRows(init, chatId, afterTs, exclude);
      assert log == init + [row];
      var seen := Sightings(init, chatId);
      if Sights(row, chatId) {
        assert Sightings(log, chatId) == seen + [Sighting(row.ts, row.msg.updateId)];
        assert forall e :: e in Sightings(log, chatId) <==> e in seen || e == Sighting(row.ts, row.msg.updateId);
      } else {
        assert Sightings(log, chatId) == seen;
      }
      assert forall r :: r in log <==> r in init || r == row;
    }
  }

  lemma TopDecides(all: seq<Sighting>, afterTs: int, exclude: int)
    ensures var top := Take(SortBy(NewestFirst, all), 2);
            (exists e | e in top :: e.updateId != exclude && e.ts > afterTs) <==>
            (exists e | e in all :: e.updateId != exclude && e.ts > afterTs)
            && !(|top| == 2 && top[0].updateId == exclude && top[1].updateId == exclude)
  {
    var sorted := SortBy(NewestFirst, all);
    var top := Take(sorted, 2);
    NewestOrder();
    SortSorted(NewestFirst, all);
    SortByIn(NewestFirst, all);
    assert forall e | e in top :: e in sorted;
    if e :| e in all && e.updateId != exclude && e.ts > afterTs {
      assert e in sorted;
      var i :| 0 <= i < |sorted| && sorted[i] == e;
      if i < 2 {
        assert top[i] == e;
      } else {
        assert NewestFirst(sorted[0], sorted[i]) && NewestFirst(sorted[1], sorted[i]);
        assert top[0] in top && top[1] in top;
      }
    }
  }

  /**
   * After every legal run, for a process whose fold has read the whole log: the fold says that the
   * chat saw another arrival exactly when a row says so, unless the two newest sightings of the
   * chat are both of the excluded update, which redeliveries can make them.
   */
  lemma InboundSinceIsExact(run: seq<Op>, chatId: int, afterTs: int, exclude: int)
    requires LegalRun(FRESH, run) && Execute(FRESH, run).fold.Some? && !Lags(Execute(FRESH, run))
    ensures var s := Execute(FRESH, run);
            InboundSince(s.fold.value, chatId, afterTs, exclude) <==>
            OtherSince(s.log, chatId, afterTs, exclude) && !HidesTheChat(s.log, chatId, exclude)
  {
    var s := Execute(FRESH, run);
    assert Remembers(FRESH);
    RunRemembers(FRESH, run);
    Caught(s);
    SightedRows(s.log, chatId, afterTs, exclude);
    TopDecides(Sightings(s.log, chatId), afterTs, exclude);
  }

  // ---------------------------------------------------------------------------
  // Outbounds
  // ---------------------------------------------------------------------------

  /**
   * The row is an outbound of a turn that the fold attributes to the chat when it reads the row, and
   * it is late enough; the first of a chat counts as no earlier than time 0.
   */
  predicate ShowsOutbound(f: FoldState, row: Row, chatId: int, afterTs: int) {
    && row.Outbound? && row.turnId in f.turnChat && f.turnChat[row.turnId] == chatId
    && (row.ts > afterTs || (chatId !in f.outboundLast && 0 > afterTs))
  }

  /** Some append of the run does. */
  ghost predicate OutboundInRun(s: Ledger, run: seq<Op>, chatId: int, afterTs: int)
    decreases |run|
  {
    run != [] &&
    (|| (AppendedBy(run[0]).Some? && ShowsOutbound(CatchUp(s), AppendedBy(run[0]).value, chatId, afterTs))
     || OutboundInRun(Step(s, run[0]), run[1..], chatId, afterTs))
  }

  lemma OutboundStep(f: FoldState, row: Row, chatId: int, afterTs: int)
    ensures OutboundSince(Consume(f, row), chatId, afterTs) <==>
            OutboundSince(f, chatId, afterTs) || ShowsOutbound(f, row, chatId, afterTs)
  {
  }

  lemma OutboundOp(s: Ledger, op: Op, chatId: int, afterTs: int)
    requires Steady(s) && Legal(s, op)
    ensures OutboundSince(CatchUp(Step(s, op)), chatId, afterTs) <==>
            || OutboundSince(CatchUp(s), chatId, afterTs)
            || (AppendedBy(op).Some? && ShowsOutbound(CatchUp(s), AppendedBy(op).value, chatId, afterTs))
  {
    StepCaught(s, op);
    if AppendedBy(op).Some? {
      OutboundStep(CatchUp(s), AppendedBy(op).value, chatId, afterTs);
    }
  }

  /**
   * Over every legal run: the fold says that the chat got an outbound exactly when it said so before
   * or the run appends one to a turn that was attributed to the chat at that moment.
   */
  lemma {:induction false} OutboundSinceIsExact(s: Ledger, run: seq<Op>, chatId: int, afterTs: int)
    requires Steady(s) && LegalRun(s, run)
    ensures OutboundSince(CatchUp(Execute(s, run)), chatId, afterTs) <==>
            OutboundSince(CatchUp(s), chatId, afterTs) || OutboundInRun(s, run, chatId, afterTs)
    decreases |run|
  {
    if run != [] {
      OutboundOp(s, run[0], chatId, afterTs);
      StepCaught(s, run[0]);
      ExecuteFirst(s, run);
      OutboundSinceIsExact(Step(s, run[0]), run[1..], chatId, afterTs);
    }
  }

  /** Pruning hides the outbounds of exactly the turns whose arrivals it drops: they lose their chat. */
  lemma AttributionLostIff(f: FoldState, turnId: string, row: Row)
    requires row.Outbound? && row.turnId == turnId && turnId in f.turnChat
    ensures var hides := exists u | u in f.arrivals :: Done(f.arrivals[u]) && f.arrivals[u].turnId == Some(turnId);
            && (turnId !in Prune(f).turnChat <==> hides)
            && (hides ==> Consume(Prune(f), row).outboundLast == f.outboundLast)
            && (!hides ==> Prune(f).turnChat[turnId] == f.turnChat[turnId])
  {
    if u :| u in f.arrivals && Done(f.arrivals[u]) && f.arrivals[u].turnId == Some(turnId) {
      assert f.arrivals[u].turnId.value in DoneTurns(f.arrivals);
    }
    if turnId in DoneTurns(f.arrivals) {
      var u :| u in f.arrivals && Done(f.arrivals[u]) && f.arrivals[u].turnId.Some? && f.arrivals[u].turnId.value == turnId;
      assert f.arrivals[u].turnId == Some(turnId);
    }
  }

  // ---------------------------------------------------------------------------
  // Attribution over a run
  // ---------------------------------------------------------------------------

  /** The operation prunes, and with it lets go of an arrival linked to the turn. */
  ghost predicate LetsGo(s: Ledger, op: Op, turnId: string) {
    && (op.Reconcile? || (op.Abandon? && s.fold.Some?))
    && var held := (if op.Abandon? then Consume(CatchUp(s), op.abandon) else CatchUp(s)).arrivals;
       exists u | u in held :: Done(held[u]) && held[u].turnId == Some(turnId)
  }

  /** The operation links an update that is held, of this chat, to the turn; `held` is what is held then. */
  predicate LinksTo(held: map<int, Arrival>, op: Op, turnId: string) {
    && AppendedBy(op).Some? && AppendedBy(op).value.Link?
    && AppendedBy(op).value.turnId == turnId && AppendedBy(op).value.updateId in held
  }

  /**
   * The last operation of the run to link a held update to the turn linked one of this chat, and
   * none since let go of an arrival of the turn.
   */
  ghost predicate Attributed(run: seq<Op>, turnId: string, chatId: int)
    decreases |run|
  {
    run != [] &&
    var op, before := run[|run| - 1], Execute(FRESH, run[..|run| - 1]);
    var held := CatchUp(before).arrivals;
    && !LetsGo(before, op, turnId)
    && (if LinksTo(held, op, turnId) then held[AppendedBy(op).value.updateId].msg.chatId == chatId
        else Attributed(run[..|run| - 1], turnId, chatId))
  }

  predicate ChatIs(f: FoldState, turnId: string, chatId: int) {
    turnId in f.turnChat && f.turnChat[turnId] == chatId
  }

  lemma ChatAfterRow(f: FoldState, row: Row, turnId: string, chatId: int)
    ensures ChatIs(Consume(f, row), turnId, chatId) <==>
            if row.Link? && row.turnId == turnId && row.updateId in f.arrivals
            then f.arrivals[row.updateId].msg.chatId == chatId
            else ChatIs(f, turnId, chatId)
  {
  }

  lemma ChatAfterPrune(f: FoldState, turnId: string, chatId: int)
    ensures ChatIs(Prune(f), turnId, chatId) <==>
            ChatIs(f, turnId, chatId)
            && !exists u | u in f.arrivals :: Done(f.arrivals[u]) && f.arrivals[u].turnId == Some(turnId)
  {
    if u :| u in f.arrivals && Done(f.arrivals[u]) && f.arrivals[u].turnId == Some(turnId) {
      assert f.arrivals[u].turnId.value in DoneTurns(f.arrivals);
    }
    if turnId in DoneTurns(f.arrivals) {
      var u :| u in f.arrivals && Done(f.arrivals[u]) && f.arrivals[u].turnId.Some? && f.arrivals[u].turnId.value == turnId;
      assert f.arrivals[u].turnId == Some(turnId);
    }
  }

  lemma ChatAfterOp(s: Ledger, op: Op, turnId: string, chatId: int)
    requires Steady(s) && Legal(s, op)
    ensures var held := CatchUp(s).arrivals;
            ChatIs(CatchUp(Step(s, op)), turnId, chatId) <==>
            && !LetsGo(s, op, turnId)
            && (if LinksTo(held, op, turnId) then held[AppendedBy(op).value.updateId].msg.chatId == chatId
                else ChatIs(CatchUp(s), turnId, chatId))
  {
    StepCaught(s, op);
    var f := CatchUp(s);
    if AppendedBy(op).Some? {
      var row := AppendedBy(op).value;
      ChatAfterRow(f, row, turnId, chatId);
      ChatAfterPrune(Consume(f, row), turnId, chatId);
    } else {
      ChatAfterPrune(f, turnId, chatId);
    }
  }

  lemma {:induction false} LegalPrefix(s: Ledger, run: seq<Op>)
    requires LegalRun(s, run) && run != []
    ensures LegalRun(s, run[..|run| - 1]) && Legal(Execute(s, run[..|run| - 1]), run[|run| - 1])
    decreases |run|
  {
    if |run| > 1 {
      LegalPrefix(Step(s, run[0]), run[1..]);
      var init := run[..|run| - 1];
      assert run[1..][..|run| - 2] == init[1..] && init[0] == run[0];
      ExecuteFirst(s, init);
    } else {
      assert run[..0] == [];
    }
  }

  lemma {:induction false} RunSteady(s: Ledger, run: seq<Op>)
    requires Steady(s)
    ensures Steady(Execute(s, run))
    decreases |run|
  {
    if run != [] {
      RunSteady(s, run[..|run| - 1]);
      StepSteady(Execute(s, run[..|run| - 1]), run[|run| - 1]);
    }
  }

  /** The fold attributes a turn to a chat exactly as the run does. */
  lemma {:induction false} AttributedIff(run: seq<Op>, turnId: string, chatId: int)
    requires LegalRun(FRESH, run)
    ensures ChatIs(CatchUp(Execute(FRESH, run)), turnId, chatId) <==> Attributed(run, turnId, chatId)
    decreases |run|
  {
    if run != [] {
      var init, op := run[..|run| - 1], run[|run| - 1];
      LegalPrefix(FRESH, run);
      AttributedIff(init, turnId, chatId);
      RunSteady(FRESH, init);
      ChatAfterOp(Execute(FRESH, init), op, turnId, chatId);
    }
  }

  /** The run's operation k writes an outbound row of a turn then attributed to the chat. */
  ghost predicate OutboundTo(run: seq<Op>, k: nat, chatId: int)
    requires k < |run|
  {
    && AppendedBy(run[k]).Some? && AppendedBy(run[k]).value.Outbound?
    && Attributed(run[..k], AppendedBy(run[k]).value.turnId, chatId)
  }

  /** Late enough: the first outbound of a chat counts as no earlier than time 0. */
  ghost predicate OutboundAfter(run: seq<Op>, k: nat, chatId: int, afterTs: int)
    requires k < |run|
  {
    OutboundTo(run, k, chatId) && (AppendedBy(run[k]).value.ts > afterTs || afterTs < 0)
  }

  ghost predicate SomeOutboundAfter(run: seq<Op>, chatId: int, afterTs: int) {
    exists k: nat :: k < |run| && OutboundAfter(run, k, chatId, afterTs)
  }

  lemma OutboundLater(run: seq<Op>, chatId: int, afterTs: int)
    requires run != []
    ensures SomeOutboundAfter(run, chatId, afterTs) <==>
            SomeOutboundAfter(run[..|run| - 1], chatId, afterTs) || OutboundAfter(run, |run| - 1, chatId, afterTs)
  {
    var init := run[..|run| - 1];
    forall k: nat | k < |init| ensures OutboundAfter(init, k, chatId, afterTs) <==> OutboundAfter(run, k, chatId, afterTs) {
      assert init[..k] == run[..k];
    }
  }

  /** Once a chat has any outbound, one is on record for every time before 0. */
  lemma OutboundSinceAlways(f: FoldState, chatId: int, afterTs: int)
    requires ZeroOrLater(f)
    ensures afterTs < 0 ==> (OutboundSince(f, chatId, afterTs) <==> chatId in f.outboundLast)
  {
  }

  ghost predicate ZeroOrLater(f: FoldState) {
    forall chat | chat in f.outboundLast :: f.outboundLast[chat] >= 0
  }

  lemma RowZeroOrLater(f: FoldState, row: Row)
    requires ZeroOrLater(f)
    ensures ZeroOrLater(Consume(f, row))
  {
  }

  lemma OpZeroOrLater(s: Ledger, op: Op)
    requires Steady(s) && Legal(s, op) && ZeroOrLater(CatchUp(s))
    ensures ZeroOrLater(CatchUp(Step(s, op)))
  {
    StepCaught(s, op);
    if AppendedBy(op).Some? {
      RowZeroOrLater(CatchUp(s), AppendedBy(op).value);
    }
  }

  lemma {:induction false} RunZeroOrLater(run: seq<Op>)
    requires LegalRun(FRESH, run)
    ensures ZeroOrLater(CatchUp(Execute(FRESH, run)))
    decreases |run|
  {
    if run != [] {
      var init, op := run[..|run| - 1], run[|run| - 1];
      LegalPrefix(FRESH, run);
      RunZeroOrLater(init);
      RunSteady(FRESH, init);
      OpZeroOrLater(Execute(FRESH, init), op);
    }
  }

  /**
   * After every legal run: the fold says that the chat got an outbound after a time exactly when the
   * run wrote one, later than that, to a turn attributed to the chat when it was written.
   */
  lemma {:induction false} OutboundSinceOfRows(run: seq<Op>, chatId: int, afterTs: int)
    requires LegalRun(FRESH, run)
    ensures OutboundSince(CatchUp(Execute(FRESH, run)), chatId, afterTs) <==> SomeOutboundAfter(run, chatId, afterTs)
    decreases |run|
  {
    if run != [] {
      var init, op := run[..|run| - 1], run[|run| - 1];
      var s := Execute(FRESH, init);
      LegalPrefix(FRESH, run);
      OutboundSinceOfRows(init, chatId, afterTs);
      RunSteady(FRESH, init);
      OutboundOp(s, op, chatId, afterTs);
      OutboundLater(run, chatId, afterTs);
      RunZeroOrLater(init);
      OutboundSinceAlways(CatchUp(s), chatId, afterTs);
      if AppendedBy(op).Some? && AppendedBy(op).value.Outbound? {
        AttributedIff(init, AppendedBy(op).value.turnId, chatId);
      }
    }
  }

  // ---------------------------------------------------------------------------
  // Did the chat move on
  // ---------------------------------------------------------------------------

  /**
   * The chat went on after the given time, as far as two sightings and the attribution of each
   * outbound when it is written can tell: a row shows another arrival and the two newest are not both
   * of the excluded update, or the run wrote an outbound to a turn attributed to the chat.
   */
  ghost predicate WentOn(run: seq<Op>, chatId: int, afterTs: int, exclude: int) {
    var log := Execute(FRESH, run).log;
    || (OtherSince(log, chatId, afterTs, exclude) && !HidesTheChat(log, chatId, exclude))
    || SomeOutboundAfter(run, chatId, afterTs)
  }

  /** What chatMovedOn answers, after every legal run, for a process whose fold has read the whole log. */
  lemma ChatMovedOnIsExact(run: seq<Op>, s: Ledger, chatId: int, afterTs: int, exclude: int)
    requires LegalRun(FRESH, run) && s == Execute(FRESH, run) && s.fold.Some? && !Lags(s)
    ensures var f := s.fold.value;
            InboundSince(f, chatId, afterTs, exclude) || OutboundSince(f, chatId, afterTs) <==>
            WentOn(run, chatId, afterTs, exclude)
  {
    InboundSinceIsExact(run, chatId, afterTs, exclude);
    OutboundSinceOfRows(run, chatId, afterTs);
    assert Remembers(FRESH);
    RunRemembers(FRESH, run);
    Caught(s);
  }
}
