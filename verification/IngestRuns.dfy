/**
 * The ingestion protocol as a state machine: Telegram issues updates, the process polls,
 * appends the claim, runs the handler, links, commits the offset, and may stop between any
 * two of these.
 */
module IngestRuns {
  import opened Orders
  import opened LedgerRows
  import opened MessageLedger

  // ---------------------------------------------------------------------------
  // States
  // ---------------------------------------------------------------------------

  /** Where the loop stands in its batch; the head of `todo` is the update at hand. */
  datatype Stage =
    | Idle
    | Claim(todo: seq<InboundMsg>)
    | Handle(todo: seq<InboundMsg>)
    | LinkIt(todo: seq<InboundMsg>, turn: string)
    | Commit(todo: seq<InboundMsg>)

  /** `committed` is what the offset store answers; it runs ahead of the file when a write fails. */
  datatype Process = Down | Up(seen: set<int>, committed: int, stage: Stage)

  /** `torn`: the file the next row goes to ends in a fragment without a newline. */
  datatype World = World(
    rows: seq<Row>,
    torn: bool,
    cursorFile: int,
    issued: set<int>,
    handled: seq<int>,
    process: Process)

  const FIRST_BOOT := World([], false, 0, {}, [], Down)

  datatype Event =
    | Issue(id: int)
    | Boot
    | Poll(batch: seq<InboundMsg>)
    | Claimed(ts: int)
    | ClaimFailed
    | ClaimTorn                        // the process dies in the write
    | ClaimCut                         // the write fails part-way and the process lives on
    | Handled(turn: Option<string>)
    | NoHandler
    | HandlerThrew
    | Linked(at: int)
    | LinkFailed
    | LinkTorn
    | LinkCut
    | Committed
    | CommitFailed
    | Crash
    | CursorCorrupted
    | NewDay                           // rows go to a new file from here on; a fragment stays behind

  function Head(s: World): InboundMsg
    requires s.process.Up? && !s.process.stage.Idle? && s.process.stage.todo != []
  {
    s.process.stage.todo[0]
  }

  predicate IdLeq(x: InboundMsg, y: InboundMsg) {
    x.updateId <= y.updateId
  }

  function Ids(ms: seq<InboundMsg>): set<int> {
    set m | m in ms :: m.updateId
  }

  /** A poll answers with issued updates, the lowest unconfirmed ones first to be chosen, in any order. */
  predicate LowestPending(s: World, batch: seq<InboundMsg>)
    requires s.process.Up?
  {
    && batch != []
    && Ids(batch) <= s.issued
    && forall i, m | i in s.issued && m in batch :: s.process.committed < i <= m.updateId ==> i in Ids(batch)
  }

  predicate Enabled(s: World, e: Event) {
    match e
    case Issue(id) => id > 0 && forall i | i in s.issued :: i < id
    case Boot => s.process.Down?
    case CursorCorrupted => s.process.Down?
    case NewDay => true
    case Crash => s.process.Up?
    case Poll(batch) => s.process.Up? && s.process.stage.Idle? && LowestPending(s, batch)
    case Claimed(_) => s.process.Up? && s.process.stage.Claim? && s.process.stage.todo != []
    case ClaimFailed => s.process.Up? && s.process.stage.Claim? && s.process.stage.todo != []
    case ClaimTorn => s.process.Up? && s.process.stage.Claim? && s.process.stage.todo != []
    case ClaimCut => s.process.Up? && s.process.stage.Claim? && s.process.stage.todo != []
    case Handled(_) => s.process.Up? && s.process.stage.Handle? && s.process.stage.todo != []
    case NoHandler => s.process.Up? && s.process.stage.Handle? && s.process.stage.todo != []
    case HandlerThrew => s.process.Up? && s.process.stage.Handle? && s.process.stage.todo != []
    case Linked(_) => s.process.Up? && s.process.stage.LinkIt? && s.process.stage.todo != []
    case LinkFailed => s.process.Up? && s.process.stage.LinkIt? && s.process.stage.todo != []
    case LinkTorn => s.process.Up? && s.process.stage.LinkIt? && s.process.stage.todo != []
    case LinkCut => s.process.Up? && s.process.stage.LinkIt? && s.process.stage.todo != []
    case Committed => s.process.Up? && s.process.stage.Commit? && s.process.stage.todo != []
    case CommitFailed => s.process.Up? && s.process.stage.Commit? && s.process.stage.todo != []
  }

  /** appendFile: a row after a torn tail lands on the fragment's line and is read as neither. */
  function AppendLine(s: World, row: Row): World {
    s.(rows := if s.torn then s.rows else s.rows + [row], torn := false)
  }

  function At(s: World, stage: Stage): World
    requires s.process.Up?
  {
    s.(process := s.process.(stage := stage))
  }

  function Advance(todo: seq<InboundMsg>): Stage
    requires todo != []
  {
    if |todo| == 1 then Idle else Claim(todo[1..])
  }

  function Step(s: World, e: Event): World
    requires Enabled(s, e)
  {
    match e
    case Issue(id) => s.(issued := s.issued + {id})
    case Boot => s.(process := Up(InboundIds(s.rows), s.cursorFile, Idle))
    case CursorCorrupted => s.(cursorFile := 0)
    case NewDay => s.(torn := false)
    case Crash => s.(process := Down)
    case Poll(batch) => At(s, Claim(SortBy(IdLeq, batch)))
    case Claimed(ts) =>
      var p, m := s.process, Head(s);
      var t := AppendLine(s, Inbound(ts, m));
      t.(process := p.(seen := p.seen + {m.updateId},
                       stage := if m.updateId in p.seen then Commit(p.stage.todo) else Handle(p.stage.todo)))
    case ClaimFailed =>
      s.(process := s.process.(seen := s.process.seen + {Head(s).updateId}, stage := Idle))
    case ClaimTorn => s.(torn := true, process := Down)
    case ClaimCut =>
      s.(torn := true, process := s.process.(seen := s.process.seen + {Head(s).updateId}, stage := Idle))
    case Handled(turn) =>
      var t := s.(handled := s.handled + [Head(s).updateId]);
      At(t, match turn case Some(id) => LinkIt(s.process.stage.todo, id) case None => Commit(s.process.stage.todo))
    case NoHandler => At(s, Commit(s.process.stage.todo))
    case HandlerThrew => At(s.(handled := s.handled + [Head(s).updateId]), Idle)
    case Linked(ts) =>
      At(AppendLine(s, Link(ts, Head(s).updateId, s.process.stage.turn)), Commit(s.process.stage.todo))
    case LinkFailed => At(s, Idle)
    case LinkTorn => s.(torn := true, process := Down)
    case LinkCut => At(s.(torn := true), Idle)
    case Committed =>
      var id := Head(s).updateId;
      var t := if id > s.process.committed
               then s.(cursorFile := id, process := s.process.(committed := id)) else s;
      At(t, Advance(s.process.stage.todo))
    case CommitFailed =>
      var id := Head(s).updateId;
      At(if id > s.process.committed then s.(process := s.process.(committed := id)) else s, Idle)
  }

  predicate Tears(e: Event) {
    e.ClaimTorn? || e.LinkTorn? || Cuts(e)
  }

  /** A torn write that the process survives. */
  predicate Cuts(e: Event) {
    e.ClaimCut? || e.LinkCut?
  }

  // ---------------------------------------------------------------------------
  // Safety
  // ---------------------------------------------------------------------------

  /** No update handled twice, and every issued update the cursor has passed has a readable inbound row. */
  ghost predicate Safe(s: World) {
    && NoRepeats(s.handled)
    && forall i | i in s.issued :: i <= s.cursorFile ==> i in InboundIds(s.rows)
  }

  ghost predicate StageOk(s: World)
    requires s.process.Up?
  {
    var st := s.process.stage;
    st.Idle? ||
    (&& st.todo != []
     && Ids(st.todo) <= s.issued
     && Sorted(IdLeq, st.todo)
     && (forall i, m | i in s.issued && m in st.todo :: s.process.committed < i <= m.updateId ==> i in Ids(st.todo))
     && (!st.Claim? ==> st.todo[0].updateId in InboundIds(s.rows))
     && (st.Handle? ==> st.todo[0].updateId !in s.handled)
     && (st.Handle? || st.LinkIt? ==> st.todo[0].updateId > s.process.committed))
  }

  predicate Issued(s: World, cursor: int) {
    cursor == 0 || cursor in s.issued
  }

  /** Everything the protocol keeps, but for the tail of the ledger file. */
  ghost predicate Kept(s: World) {
    && Safe(s)
    && Issued(s, s.cursorFile)
    && (forall i | i in s.issued :: i > 0)
    && (forall h | h in s.handled :: h in InboundIds(s.rows))
    && (s.process.Up? ==>
          && Issued(s, s.process.committed)
          && InboundIds(s.rows) <= s.process.seen
          && s.cursorFile <= s.process.committed
          && (forall i | i in s.issued :: i <= s.process.committed ==> i in InboundIds(s.rows))
          && StageOk(s))
  }

  /** The lowest issued update past a cursor: the next to be delivered from there. */
  predicate LowestFrom(s: World, cursor: int, p: int) {
    p in s.issued && p > cursor && forall i | i in s.issued && i > cursor :: p <= i
  }

  /** Something is pending there, and the first of it has a readable row. */
  ghost predicate RecordedFrom(s: World, cursor: int) {
    exists p :: LowestFrom(s, cursor, p) && p in InboundIds(s.rows)
  }

  /** The next append is a redelivery's, in this process and in the one after a restart. */
  ghost predicate NextIsRecorded(s: World) {
    RecordedFrom(s, s.cursorFile) && (s.process.Up? ==> RecordedFrom(s, s.process.committed))
  }

  /** The fragment waits for a row that is already there. */
  ghost predicate Absorbs(s: World) {
    && NextIsRecorded(s)
    && (s.process.Up? ==>
          || s.process.stage.Idle?
          || (s.process.stage.Claim? && s.process.stage.todo != [] && Head(s).updateId in InboundIds(s.rows)))
  }

  ghost predicate Inv(s: World) {
    Kept(s) && (s.torn ==> Absorbs(s))
  }

  ghost predicate Clean(s: World) {
    Kept(s) && !s.torn
  }

  /** A torn write that the next redelivery will not absorb, be it this process's or the next one's. */
  ghost predicate Hurts(s: World, e: Event) {
    Tears(e) && !(RecordedFrom(s, s.cursorFile) && (Cuts(e) && s.process.Up? ==> RecordedFrom(s, s.process.committed)))
  }

  lemma AppendGrows(s: World, row: Row)
    requires !s.torn
    ensures InboundIds(AppendLine(s, row).rows)
            == InboundIds(s.rows) + (if row.Inbound? then {row.msg.updateId} else {})
  {
    InboundIdsSnoc(s.rows, row);
  }

  lemma IdOrder()
    ensures TotalPreorder(IdLeq)
  {
  }

  lemma IssueOk(s: World, id: int)
    requires Clean(s) && Enabled(s, Issue(id))
    ensures Clean(Step(s, Issue(id)))
  {
    if s.process.Up? && !s.process.stage.Idle? {
      forall m | m in s.process.stage.todo ensures m.updateId < id {
        assert m.updateId in Ids(s.process.stage.todo);
      }
    }
  }

  lemma PollOk(s: World, batch: seq<InboundMsg>)
    requires Clean(s) && Enabled(s, Poll(batch))
    ensures Clean(Step(s, Poll(batch)))
  {
    IdOrder();
    SortSorted(IdLeq, batch);
    SortByIn(IdLeq, batch);
    var todo := SortBy(IdLeq, batch);
    assert Ids(todo) == Ids(batch);
  }

  lemma RecordedOk(s: World, ts: int)
    requires Clean(s) && Enabled(s, Claimed(ts))
    ensures Clean(Step(s, Claimed(ts)))
  {
    AppendGrows(s, Inbound(ts, Head(s)));
  }

  lemma CommittedOk(s: World)
    requires Clean(s) && Enabled(s, Committed)
    ensures Clean(Step(s, Committed)) && Clean(Step(s, CommitFailed))
  {
    var todo := s.process.stage.todo;
    var id := todo[0].updateId;
    forall i | i in s.issued && i <= id ensures i in InboundIds(s.rows) {
      if i > s.process.committed {
        assert i in Ids(todo);
        var m :| m in todo && m.updateId == i;
        var k :| 0 <= k < |todo| && todo[k] == m;
        assert k == 0 || IdLeq(todo[0], todo[k]);
      }
    }
    var c := if id > s.process.committed then id else s.process.committed;
    forall i, m | i in s.issued && m in todo[1..] && c < i <= m.updateId ensures i in Ids(todo[1..]) {
      assert m in todo;
      assert i in Ids(todo);
      var n :| n in todo && n.updateId == i;
      assert n in todo[1..];
    }
  }

  lemma FailureOk(s: World, e: Event)
    requires Clean(s) && Enabled(s, e)
    requires e.ClaimFailed? || e.NoHandler? || e.HandlerThrew? || e.Handled? || e.LinkFailed?
             || e.Crash? || e.Boot? || e.CursorCorrupted? || e.NewDay?
    ensures Clean(Step(s, e))
  {
  }

  lemma CleanStep(s: World, e: Event)
    requires Clean(s) && Enabled(s, e) && !Tears(e)
    ensures Clean(Step(s, e))
  {
    match e {
      case Issue(id) => IssueOk(s, id);
      case Poll(batch) => PollOk(s, batch);
      case Claimed(ts) => RecordedOk(s, ts);
      case Linked(ts) => AppendGrows(s, Link(ts, Head(s).updateId, s.process.stage.turn));
      case Committed => CommittedOk(s);
      case CommitFailed => CommittedOk(s);
      case _ => FailureOk(s, e);
    }
  }

  /** What the cursor file has not passed. */
  ghost function Pending(s: World): (ids: set<int>)
    ensures forall i :: i in ids <==> i in s.issued && i > s.cursorFile
  {
    set i | i in s.issued && i > s.cursorFile
  }

  lemma {:induction false} Least(ids: set<int>) returns (p: int)
    requires ids != {}
    ensures p in ids && forall i | i in ids :: p <= i
    decreases ids
  {
    p := PickOne(ids);
    if ids != {p} {
      var rest := ids - {p};
      assert rest != {};
      var q := Least(rest);
      forall i | i in ids ensures p <= i || q <= i {
        assert i == p || i in rest;
      }
      if q < p { p := q; }
    }
  }

  /** Nothing issued past the process's cursor comes before the head of the batch. */
  lemma HeadIsLowest(s: World, i: int)
    requires Kept(s) && s.process.Up? && !s.process.stage.Idle? && i in s.issued && i > s.process.committed
    ensures i >= Head(s).updateId
  {
    var todo := s.process.stage.todo;
    assert todo[0] in todo;
    if i in Ids(todo) {
      var m :| m in todo && m.updateId == i;
      var k :| 0 <= k < |todo| && todo[k] == m;
      assert k == 0 || IdLeq(todo[0], todo[k]);
    }
  }

  /** With a recorded head past the cursor, whatever would be delivered first is recorded. */
  lemma RecordedHead(s: World)
    requires Kept(s) && s.process.Up? && !s.process.stage.Idle?
    requires Head(s).updateId > s.process.committed && Head(s).updateId in InboundIds(s.rows)
    ensures RecordedFrom(s, s.cursorFile) && RecordedFrom(s, s.process.committed)
  {
    var h := Head(s).updateId;
    assert Head(s) in s.process.stage.todo && h in Ids(s.process.stage.todo);
    forall i | i in s.issued && i > s.process.committed ensures h <= i {
      HeadIsLowest(s, i);
    }
    assert LowestFrom(s, s.process.committed, h);
    var pending := Pending(s);
    assert h in pending;
    var p := Least(pending);
    assert LowestFrom(s, s.cursorFile, p);
    if p > s.process.committed {
      assert p == h;
    }
  }

  /**
   * A torn link row never hurts, whether the process dies of it or not: its update is recorded, and
   * lies past the cursor.
   */
  lemma LinkTornNeverHurts(s: World, e: Event)
    requires Kept(s) && Enabled(s, e) && (e.LinkTorn? || e.LinkCut?)
    ensures !Hurts(s, e)
  {
    RecordedHead(s);
  }

  /**
   * A torn claim of a recorded update past the cursor does not hurt, nor one the process dies of
   * after a commit that never reached the file.
   */
  lemma TornClaimHarmless(s: World, e: Event)
    requires Kept(s) && Enabled(s, e) && (e.ClaimTorn? || e.ClaimCut?)
    requires (e.ClaimTorn? && s.cursorFile < s.process.committed)
             || (Head(s).updateId > s.process.committed && Head(s).updateId in InboundIds(s.rows))
    ensures !Hurts(s, e)
  {
    if Head(s).updateId > s.process.committed && Head(s).updateId in InboundIds(s.rows) {
      RecordedHead(s);
    } else {
      var pending := Pending(s);
      assert s.process.committed in s.issued by {
        assert Issued(s, s.process.committed) && Issued(s, s.cursorFile);
      }
      var p := Least(pending);
      assert LowestFrom(s, s.cursorFile, p) && p <= s.process.committed;
    }
  }

  /**
   * A claim of a new update that is cut short always hurts: its redelivery passes for a duplicate
   * and merges with the fragment.
   */
  lemma CutClaimOfNewHurts(s: World)
    requires Kept(s) && Enabled(s, ClaimCut)
    requires Head(s).updateId > s.process.committed && Head(s).updateId !in InboundIds(s.rows)
    ensures Hurts(s, ClaimCut)
  {
    var h := Head(s).updateId;
    assert Head(s) in s.process.stage.todo && h in Ids(s.process.stage.todo);
    forall p | LowestFrom(s, s.process.committed, p) ensures p == h {
      HeadIsLowest(s, p);
    }
  }

  lemma SamePending(s: World, t: World, cursor: int)
    requires t.issued == s.issued && t.rows == s.rows
    ensures RecordedFrom(t, cursor) <==> RecordedFrom(s, cursor)
  {
    assert forall p :: LowestFrom(t, cursor, p) <==> LowestFrom(s, cursor, p);
  }

  lemma TearKeepsInv(s: World, e: Event)
    requires Inv(s) && Enabled(s, e) && Tears(e) && !Hurts(s, e)
    ensures Inv(Step(s, e))
  {
    var t := Step(s, e);
    SamePending(s, t, s.cursorFile);
    SamePending(s, t, s.process.committed);
  }

  /** What is issued later comes after what is pending. */
  lemma IssueAfter(s: World, id: int, cursor: int)
    requires Enabled(s, Issue(id)) && RecordedFrom(s, cursor)
    ensures RecordedFrom(Step(s, Issue(id)), cursor)
  {
    var p :| LowestFrom(s, cursor, p) && p in InboundIds(s.rows);
    assert LowestFrom(Step(s, Issue(id)), cursor, p);
  }

  lemma TornIssue(s: World, id: int)
    requires Inv(s) && s.torn && Enabled(s, Issue(id))
    ensures Inv(Step(s, Issue(id)))
  {
    IssueAfter(s, id, s.cursorFile);
    if s.process.Up? { IssueAfter(s, id, s.process.committed); }
    IssueOk(s.(torn := false), id);
  }

  lemma TornPoll(s: World, batch: seq<InboundMsg>)
    requires Inv(s) && s.torn && Enabled(s, Poll(batch))
    ensures Inv(Step(s, Poll(batch)))
  {
    var t := Step(s, Poll(batch));
    PollOk(s.(torn := false), batch);
    assert Kept(t);
    SamePending(s, t, s.cursorFile);
    SamePending(s, t, s.process.committed);
    var p :| LowestFrom(t, t.process.committed, p) && p in InboundIds(t.rows);
    var h := Head(t).updateId;
    assert Head(t) in t.process.stage.todo;
    assert h in Ids(t.process.stage.todo);
    if h > t.process.committed {
      HeadIsLowest(t, p);
      assert h == p;
    }
  }

  lemma TornCorrupted(s: World)
    requires Inv(s) && s.torn && Enabled(s, CursorCorrupted)
    ensures Inv(Step(s, CursorCorrupted))
  {
    var t := Step(s, CursorCorrupted);
    if s.cursorFile != 0 {
      assert s.cursorFile in s.issued;
      var p := Least(s.issued);
      assert LowestFrom(t, 0, p);
    } else {
      assert t == s;
    }
  }

  lemma TornRest(s: World, e: Event)
    requires Inv(s) && s.torn && Enabled(s, e) && (e.Boot? || e.ClaimFailed? || e.Crash?)
    ensures Inv(Step(s, e))
  {
    SamePending(s, Step(s, e), s.cursorFile);
    if s.process.Up? { SamePending(s, Step(s, e), s.process.committed); }
  }

  /** While a fragment waits, only these can happen before the redelivery absorbs it. */
  lemma TornStep(s: World, e: Event)
    requires Inv(s) && s.torn && Enabled(s, e) && !Tears(e)
    ensures Inv(Step(s, e))
  {
    match e {
      case Issue(id) => TornIssue(s, id);
      case Poll(batch) => TornPoll(s, batch);
      case CursorCorrupted => TornCorrupted(s);
      case Boot => TornRest(s, e);
      case ClaimFailed => TornRest(s, e);
      case Crash => TornRest(s, e);
      case _ =>
    }
  }

  /** One step of the protocol, whatever fails in it, as long as a torn write leaves something to absorb it. */
  lemma StepKeepsInv(s: World, e: Event)
    requires Inv(s) && Enabled(s, e) && !Hurts(s, e)
    ensures Inv(Step(s, e))
    ensures !e.CursorCorrupted? ==> Step(s, e).cursorFile >= s.cursorFile
    ensures s.handled <= Step(s, e).handled
  {
    if Tears(e) {
      TearKeepsInv(s, e);
    } else if s.torn {
      TornStep(s, e);
    } else {
      CleanStep(s, e);
    }
  }

  ghost predicate Runs(s: World, run: seq<Event>, t: World)
    decreases |run|
  {
    if run == [] then s == t
    else Enabled(s, run[0]) && Runs(Step(s, run[0]), run[1..], t)
  }

  lemma RunsCons(s: World, e: Event, rest: seq<Event>, t: World)
    requires Enabled(s, e) && Runs(Step(s, e), rest, t)
    ensures Runs(s, [e] + rest, t)
  {
    assert ([e] + rest)[1..] == rest;
  }

  /** A run in which every torn write leaves a recorded update to be redelivered first. */
  ghost predicate Unhurt(s: World, run: seq<Event>)
    decreases |run|
  {
    run == [] || (Enabled(s, run[0]) && !Hurts(s, run[0]) && Unhurt(Step(s, run[0]), run[1..]))
  }

  /**
   * Over every run of polls, failures, crashes and restarts, torn link rows and torn claims of
   * recorded updates included, whether the process dies of the torn write or not: no update is
   * handled twice, everything at or below the cursor has a durable row, and the cursor file only
   * falls when it is corrupted from outside.
   */
  lemma {:induction false} RunKeepsInv(s: World, run: seq<Event>, t: World)
    requires Inv(s) && Runs(s, run, t) && Unhurt(s, run)
    ensures Inv(t) && Safe(t) && s.handled <= t.handled
    ensures CursorCorrupted !in run ==> s.cursorFile <= t.cursorFile
    decreases |run|
  {
    if run != [] {
      StepKeepsInv(s, run[0]);
      RunKeepsInv(Step(s, run[0]), run[1..], t);
    }
  }

  lemma FirstBootRunsAreSafe(run: seq<Event>, t: World)
    requires Runs(FIRST_BOOT, run, t) && Unhurt(FIRST_BOOT, run)
    ensures Safe(t)
  {
    RunKeepsInv(FIRST_BOOT, run, t);
  }

  // ---------------------------------------------------------------------------
  // The torn tail
  // ---------------------------------------------------------------------------

  /** Every continuation in which no torn write hurts is safe. */
  ghost predicate SafeFromHere(s: World) {
    forall run, t | Runs(s, run, t) && Unhurt(s, run) :: Safe(t)
  }

  lemma {:induction false} Above(ids: set<int>) returns (n: int)
    ensures n > 0 && forall i | i in ids :: i < n
  {
    if ids == {} {
      n := 1;
    } else {
      var x := PickOne(ids);
      var y := Above(ids - {x});
      n := if x < y then y else x + 1;
      forall i | i in ids ensures i < n {
        assert i == x || i in ids - {x};
      }
    }
  }

  function Message(id: int): InboundMsg {
    InboundMsg(id, 0, 0, 0, "", None, None)
  }

  /** A claim that lands on the fragment, and its handler runs. */
  function ClaimAndHandle(id: int): seq<Event> {
    [Boot, Poll([Message(id)]), Claimed(0), Handled(None), Crash]
  }

  lemma ClaimedOnce(s: World, id: int) returns (t: World)
    requires s.process.Down? && id in s.issued && id > s.cursorFile && id !in InboundIds(s.rows)
    requires forall i | i in s.issued && i > s.cursorFile :: id <= i
    ensures Runs(s, ClaimAndHandle(id), t)
    ensures t == AppendLine(s, Inbound(0, Message(id))).(handled := s.handled + [id])
  {
    var m := Message(id);
    assert Ids([m]) == {id};
    var s1 := Step(s, Boot);
    var s2 := Step(s1, Poll([m]));
    assert SortBy(IdLeq, [m]) == [m];
    var s3 := Step(s2, Claimed(0));
    var s4 := Step(s3, Handled(None));
    t := Step(s4, Crash);
    assert t == AppendLine(s, Inbound(0, m)).(handled := s.handled + [id]);
    RunsFive(s, Boot, s1, Poll([m]), s2, Claimed(0), s3, Handled(None), s4, Crash, t);
  }

  lemma RunsThree(s: World, a: Event, s1: World, b: Event, s2: World, c: Event, t: World)
    requires Enabled(s, a) && s1 == Step(s, a) && Enabled(s1, b) && s2 == Step(s1, b) && Enabled(s2, c) && t == Step(s2, c)
    ensures Runs(s, [a, b, c], t)
  {
    RunsCons(s2, c, [], t);
    RunsCons(s1, b, [c], t);
    RunsCons(s, a, [b] + [c], t);
    assert [a] + ([b] + [c]) == [a, b, c];
  }

  lemma RunsFive(s: World, a: Event, s1: World, b: Event, s2: World, c: Event, s3: World, d: Event, s4: World, e: Event, t: World)
    requires Enabled(s, a) && s1 == Step(s, a) && Enabled(s1, b) && s2 == Step(s1, b)
    requires Enabled(s2, c) && s3 == Step(s2, c) && Enabled(s3, d) && s4 == Step(s3, d)
    requires Enabled(s4, e) && t == Step(s4, e)
    ensures Runs(s, [a, b, c, d, e], t)
  {
    RunsThree(s2, c, s3, d, s4, e, t);
    RunsCons(s1, b, [c, d, e], t);
    RunsCons(s, a, [b] + [c, d, e], t);
    assert [a] + ([b] + [c, d, e]) == [a, b, c, d, e];
  }

  /** A run without torn writes to an unsafe future. */
  lemma {:induction false} UnsafeAfter(s: World, run: seq<Event>, t: World)
    requires Runs(s, run, t) && !SafeFromHere(t) && forall e | e in run :: !Tears(e)
    ensures !SafeFromHere(s)
    decreases |run|
  {
    if run != [] {
      UnsafeAfter(Step(s, run[0]), run[1..], t);
      UnsafeBefore(s, run[0]);
    }
  }

  lemma UnsafeNow(s: World)
    requires !Safe(s)
    ensures !SafeFromHere(s)
  {
    assert Runs(s, [], s) && Unhurt(s, []);
  }

  /** From a torn tail, the lowest pending update is handled twice when its claim is not recorded. */
  lemma HandledTwice(s: World, id: int)
    requires Kept(s) && s.torn && s.process.Down? && LowestFrom(s, s.cursorFile, id) && id !in InboundIds(s.rows)
    ensures !SafeFromHere(s)
  {
    var t1 := ClaimedOnce(s, id);
    var t2 := ClaimedOnce(t1, id);
    assert !Safe(t2) by {
      var n := |s.handled|;
      assert t2.handled[n] == id && t2.handled[n + 1] == id;
    }
    UnsafeNow(t2);
    UnsafeAfter(t1, ClaimAndHandle(id), t2);
    UnsafeAfter(s, ClaimAndHandle(id), t1);
  }

  lemma UnsafeBefore(s: World, e: Event)
    requires Enabled(s, e) && !Tears(e) && !SafeFromHere(Step(s, e))
    ensures !SafeFromHere(s)
  {
    var s1 := Step(s, e);
    var run, t :| Runs(s1, run, t) && Unhurt(s1, run) && !Safe(t);
    RunsCons(s, e, run, t);
    assert ([e] + run)[1..] == run;
    assert Unhurt(s, [e] + run);
  }

  /** An id above everything so far. */
  lemma NewId(s: World) returns (id: int)
    ensures Enabled(s, Issue(id)) && id !in InboundIds(s.rows) && id > s.cursorFile
    ensures s.process.Up? ==> id > s.process.committed
  {
    var ids := s.issued + InboundIds(s.rows) + {s.cursorFile};
    var more := if s.process.Up? then ids + {s.process.committed} else ids;
    id := Above(more);
    assert s.cursorFile in more && (s.process.Up? ==> s.process.committed in more);
    assert forall i | i in s.issued || i in InboundIds(s.rows) :: i in more;
  }

  /** From a torn tail that no recorded update will absorb, some update can be handled twice. */
  lemma TornTailHandlesTwice(s: World)
    requires Kept(s) && s.torn && s.process.Down? && !RecordedFrom(s, s.cursorFile)
    ensures !SafeFromHere(s)
  {
    var pending := Pending(s);
    if pending != {} {
      var p := Least(pending);
      assert LowestFrom(s, s.cursorFile, p);
      HandledTwice(s, p);
    } else {
      var id := NewId(s);
      forall i | i in s.issued ensures i <= s.cursorFile { assert i !in pending; }
      var s1 := Step(s, Issue(id));
      assert LowestFrom(s1, s1.cursorFile, id);
      HandledTwice(s1, id);
      UnsafeBefore(s, Issue(id));
    }
  }

  /** A commit of an update that has no row. */
  lemma CommitsUnrecorded(s: World)
    requires s.process.Up? && s.process.stage.Commit? && s.process.stage.todo != []
    requires Head(s).updateId > s.process.committed && Head(s).updateId in s.issued
    requires Head(s).updateId !in InboundIds(s.rows)
    ensures !SafeFromHere(s)
  {
    var t := Step(s, Committed);
    UnsafeNow(t);
    UnsafeBefore(s, Committed);
  }

  /** In a process that lives on, the row of the next update merges with the fragment, and the cursor passes it. */
  lemma PassedUnrecorded(s: World, p: int)
    requires s.torn && s.process.Up? && s.process.stage.Idle?
    requires LowestFrom(s, s.process.committed, p) && p !in InboundIds(s.rows)
    ensures !SafeFromHere(s)
  {
    var m := Message(p);
    assert Ids([m]) == {p} && SortBy(IdLeq, [m]) == [m];
    var s1 := Step(s, Poll([m]));
    var s2 := Step(s1, Claimed(0));
    if s2.process.stage.Handle? {
      CommitsUnrecorded(Step(s2, NoHandler));
      UnsafeBefore(s2, NoHandler);
    } else {
      CommitsUnrecorded(s2);
    }
    UnsafeBefore(s1, Claimed(0));
    UnsafeBefore(s, Poll([m]));
  }

  lemma LivingTornTailIsUnsafe(s: World)
    requires Kept(s) && s.torn && s.process.Up? && s.process.stage.Idle? && !RecordedFrom(s, s.process.committed)
    ensures !SafeFromHere(s)
  {
    var pending := set i | i in s.issued && i > s.process.committed;
    if pending != {} {
      var p := Least(pending);
      assert forall i | i in s.issued && i > s.process.committed :: i in pending;
      assert LowestFrom(s, s.process.committed, p);
      PassedUnrecorded(s, p);
    } else {
      var id := NewId(s);
      forall i | i in s.issued ensures i <= s.process.committed { assert i !in pending; }
      var s1 := Step(s, Issue(id));
      assert LowestFrom(s1, s1.process.committed, id);
      PassedUnrecorded(s1, id);
      UnsafeBefore(s, Issue(id));
    }
  }

  /**
   * The ledger store never repairs its tail, so the guarantee hangs on it: a program that is stopped
   * or idle is safe in every future exactly when the ledger file ends in a newline, or the update
   * that will be delivered next, by this process and after a restart, already has its row and
   * absorbs the fragment.
   */
  lemma SafeExactlyWhenTailIsAbsorbed(s: World)
    requires Kept(s) && (s.process.Up? ==> s.process.stage.Idle?)
    ensures SafeFromHere(s) <==> !s.torn || NextIsRecorded(s)
  {
    if s.torn && !NextIsRecorded(s) {
      if s.process.Down? {
        TornTailHandlesTwice(s);
      } else if RecordedFrom(s, s.cursorFile) {
        LivingTornTailIsUnsafe(s);
      } else {
        var t := Step(s, Crash);
        SamePending(s, t, s.cursorFile);
        TornTailHandlesTwice(t);
        UnsafeBefore(s, Crash);
      }
    } else {
      forall run, t | Runs(s, run, t) && Unhurt(s, run) ensures Safe(t) {
        RunKeepsInv(s, run, t);
      }
    }
  }

  /** A torn write ends the guarantee exactly when it hurts. */
  lemma TearSafeIffItDoesNotHurt(s: World, e: Event)
    requires Inv(s) && Enabled(s, e) && Tears(e)
    ensures SafeFromHere(Step(s, e)) <==> !Hurts(s, e)
  {
    var t := Step(s, e);
    SamePending(s, t, s.cursorFile);
    SamePending(s, t, s.process.committed);
    SafeExactlyWhenTailIsAbsorbed(t);
  }
}
