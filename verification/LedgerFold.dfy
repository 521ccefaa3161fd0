/**
 * The reconcile fold of the message ledger: how one row changes it, what the verdict
 * table says about it, and what pruning drops. The functions are the specification;
 * class Fold updates its maps in place and is proved to compute them.
 */
module LedgerFold {
  import opened Orders
  import opened LedgerRows

  datatype TurnDecision = TurnDecision(plan: Plan, dueBy: Option<int>, decidedBy: Option<DecidedBy>)

  datatype Arrival = Arrival(
    msg: InboundMsg,
    ts: int,
    count: nat,
    turnId: Option<string>,
    turnReplied: bool,
    decision: Option<TurnDecision>,
    abandoned: Option<AbandonReason>,
    lastEscalation: Option<Escalation>)

  datatype Sighting = Sighting(ts: int, updateId: int)

  datatype FoldState = FoldState(
    arrivals: map<int, Arrival>,
    turnChat: map<string, int>,
    inboundTop: map<int, seq<Sighting>>,
    outboundLast: map<int, int>,
    consumed: nat)

  const EMPTY := FoldState(map[], map[], map[], map[], 0)

  // ---------------------------------------------------------------------------
  // applyRow
  // ---------------------------------------------------------------------------

  function FirstArrival(ts: int, m: InboundMsg): Arrival {
    Arrival(m, ts, 1, None, false, None, None, None)
  }

  /** What a row does to an arrival the fold already holds. */
  function Touch(u: int, a: Arrival, row: Row): Arrival {
    match row
    case Link(_, v, t) => if u == v then a.(turnId := Some(t)) else a
    case Outbound(_, t, _, _) => if a.turnId == Some(t) then a.(turnReplied := true) else a
    case Decision(_, t, plan, _, dueBy, decider) =>
      if a.turnId == Some(t) then a.(decision := Some(TurnDecision(plan, dueBy, decider))) else a
    case Abandoned(_, v, r) => if u == v then a.(abandoned := Some(r)) else a
    case Inbound(ts, m) =>
      if u == m.updateId then
        a.(msg := if a.ts <= ts then a.msg else m, ts := if a.ts <= ts then a.ts else ts, count := a.count + 1)
      else a
  }

  function NewestFirst(x: Sighting, y: Sighting): bool {
    x.ts >= y.ts
  }

  function TopTwo(top: seq<Sighting>, s: Sighting): seq<Sighting> {
    Take(SortBy(NewestFirst, top + [s]), 2)
  }

  function Apply(f: FoldState, row: Row): FoldState {
    var touched := map u | u in f.arrivals :: Touch(u, f.arrivals[u], row);
    match row
    case Link(_, v, t) =>
      f.(arrivals := touched,
         turnChat := if v in f.arrivals then f.turnChat[t := f.arrivals[v].msg.chatId] else f.turnChat)
    case Outbound(ts, t, _, _) =>
      f.(arrivals := touched,
         outboundLast :=
           if t !in f.turnChat then f.outboundLast
           else
             var chat := f.turnChat[t];
             var seen := if chat in f.outboundLast then f.outboundLast[chat] else 0;
             f.outboundLast[chat := if seen >= ts then seen else ts])
    case Decision(_, _, _, _, _, _) => f.(arrivals := touched)
    case Abandoned(_, _, _) => f.(arrivals := touched)
    case Inbound(ts, m) =>
      f.(arrivals := if m.updateId in f.arrivals then touched else touched[m.updateId := FirstArrival(ts, m)],
         inboundTop :=
           if m.skipped.Some? then f.inboundTop
           else
             var top := if m.chatId in f.inboundTop then f.inboundTop[m.chatId] else [];
             f.inboundTop[m.chatId := TopTwo(top, Sighting(ts, m.updateId))])
  }

  /** One row read from the store: applied and counted. */
  function Consume(f: FoldState, row: Row): FoldState {
    Apply(f, row).(consumed := f.consumed + 1)
  }

  function ConsumeAll(f: FoldState, rows: seq<Row>): (r: FoldState)
    ensures r.consumed == f.consumed + |rows|
    decreases |rows|
  {
    if rows == [] then f else Consume(ConsumeAll(f, rows[..|rows| - 1]), rows[|rows| - 1])
  }

  lemma {:induction false} ConsumeAllAppend(f: FoldState, a: seq<Row>, b: seq<Row>)
    ensures ConsumeAll(f, a + b) == ConsumeAll(ConsumeAll(f, a), b)
    decreases |b|
  {
    if b == [] {
      assert a + b == a;
    } else {
      assert (a + b)[..|a + b| - 1] == a + b[..|b| - 1];
      ConsumeAllAppend(f, a, b[..|b| - 1]);
    }
  }

  lemma ConsumeNext(f: FoldState, rows: seq<Row>, n: nat)
    requires n < |rows|
    ensures ConsumeAll(f, rows[..n + 1]) == Consume(ConsumeAll(f, rows[..n]), rows[n])
  {
    assert rows[..n + 1][..n] == rows[..n];
  }

  // ---------------------------------------------------------------------------
  // verdictsOf
  // ---------------------------------------------------------------------------

  /** Decided silent by restraint: a silence that the loop did not merely fail into. */
  predicate Restraint(d: TurnDecision) {
    d.plan == Silent && d.decidedBy != Some(Failure)
  }

  /** Nothing is owed for this arrival, whatever its turn decides later. */
  predicate Terminal(a: Arrival) {
    a.msg.reaction.Some? || a.msg.skipped.Some? || a.abandoned.Some? || a.turnReplied
  }

  predicate Excused(a: Arrival, now: int) {
    a.turnId.Some? &&
    (a.turnReplied ||
     (a.decision.Some? &&
      (Restraint(a.decision.value) ||
       (a.decision.value.plan == Defer && a.decision.value.dueBy.Some? && a.decision.value.dueBy.value > now))))
  }

  predicate IsLost(a: Arrival, now: int, windowMs: int) {
    && a.msg.reaction.None?
    && a.msg.skipped.None?
    && a.abandoned.None?
    && now - a.ts > windowMs
    && !Excused(a, now)
  }

  datatype Key = Key(ts: int, id: int)

  predicate KeyLeq(x: Key, y: Key) {
    x.ts < y.ts || (x.ts == y.ts && x.id <= y.id)
  }

  ghost function Keys(m: map<int, Arrival>): set<Key> {
    set u | u in m :: Key(m[u].ts, u)
  }

  /** Some enumeration of a finite set, each element once. */
  ghost function Listing(s: set<Key>): (r: seq<Key>)
    ensures multiset(r) == multiset(s)
  {
    if s == {} then []
    else
      var k :| k in s;
      [k] + Listing(s - {k})
  }

  /** The arrivals in verdict order: oldest first, then by update id. */
  ghost function Ordered(m: map<int, Arrival>): seq<Key> {
    SortBy(KeyLeq, Listing(Keys(m)))
  }

  function LostAt(a: Arrival, now: int, windowMs: int): seq<Discrepancy> {
    if IsLost(a, now, windowMs) then [LostReply(a.msg, now - a.ts, a.turnId)] else []
  }

  function DuplicateAt(u: int, a: Arrival): seq<Discrepancy> {
    if a.count > 1 then [DuplicateInbound(u)] else []
  }

  function LostIn(m: map<int, Arrival>, ks: seq<Key>, now: int, windowMs: int): seq<Discrepancy>
    requires forall k | k in ks :: k.id in m
    decreases |ks|
  {
    if ks == [] then []
    else
      var k := ks[|ks| - 1];
      LostIn(m, ks[..|ks| - 1], now, windowMs) + LostAt(m[k.id], now, windowMs)
  }

  function DuplicatesIn(m: map<int, Arrival>, ks: seq<Key>): seq<Discrepancy>
    requires forall k | k in ks :: k.id in m
    decreases |ks|
  {
    if ks == [] then []
    else
      var k := ks[|ks| - 1];
      DuplicatesIn(m, ks[..|ks| - 1]) + DuplicateAt(k.id, m[k.id])
  }

  lemma KeyOrder()
    ensures TotalPreorder(KeyLeq)
    ensures forall s: seq<Key> :: Antisymmetric(KeyLeq, s)
  {
  }

  lemma OrderedElements(m: map<int, Arrival>)
    ensures forall k :: k in Ordered(m) <==> k in Keys(m)
    ensures forall k | k in Ordered(m) :: k.id in m && k.ts == m[k.id].ts
  {
    SortByIn(KeyLeq, Listing(Keys(m)));
    forall k ensures k in Listing(Keys(m)) <==> k in Keys(m) {
      assert k in Listing(Keys(m)) <==> k in multiset(Listing(Keys(m)));
    }
  }

  ghost function Verdicts(m: map<int, Arrival>, now: int, windowMs: int): seq<Discrepancy> {
    OrderedElements(m);
    LostIn(m, Ordered(m), now, windowMs) + DuplicatesIn(m, Ordered(m))
  }

  lemma {:induction false} LostMembers(m: map<int, Arrival>, ks: seq<Key>, now: int, windowMs: int, d: Discrepancy)
    requires forall k | k in ks :: k.id in m
    ensures d in LostIn(m, ks, now, windowMs) <==>
            exists k | k in ks :: d in LostAt(m[k.id], now, windowMs)
    ensures d in DuplicatesIn(m, ks) <==> exists k | k in ks :: d in DuplicateAt(k.id, m[k.id])
    decreases |ks|
  {
    if ks != [] {
      var init, last := ks[..|ks| - 1], ks[|ks| - 1];
      assert ks == init + [last];
      LostMembers(m, init, now, windowMs, d);
      assert forall k :: k in ks <==> k in init || k == last;
    }
  }

  /** The verdict list holds exactly the losses and the redeliveries of the fold. */
  lemma VerdictMembers(m: map<int, Arrival>, now: int, windowMs: int, d: Discrepancy)
    ensures d in Verdicts(m, now, windowMs) <==>
            exists u :: u in m && (d in LostAt(m[u], now, windowMs) || d in DuplicateAt(u, m[u]))
  {
    OrderedElements(m);
    LostMembers(m, Ordered(m), now, windowMs, d);
    if u :| u in m && (d in LostAt(m[u], now, windowMs) || d in DuplicateAt(u, m[u])) {
      assert Key(m[u].ts, u) in Keys(m);
      assert Key(m[u].ts, u) in Ordered(m);
    }
  }

  // ---------------------------------------------------------------------------
  // pruneFold
  // ---------------------------------------------------------------------------

  predicate Done(a: Arrival) {
    a.count == 1 && (Terminal(a) || (a.decision.Some? && Restraint(a.decision.value)))
  }

  function DoneTurns(m: map<int, Arrival>): set<string> {
    set u | u in m && Done(m[u]) && m[u].turnId.Some? :: m[u].turnId.value
  }

  function Prune(f: FoldState): FoldState {
    f.(arrivals := map u | u in f.arrivals && !Done(f.arrivals[u]) :: f.arrivals[u],
       turnChat := f.turnChat - DoneTurns(f.arrivals))
  }

  // ---------------------------------------------------------------------------
  // The mutable fold
  // ---------------------------------------------------------------------------

  class Fold {
    var arrivals: map<int, Arrival>
    var turnChat: map<string, int>
    var inboundTop: map<int, seq<Sighting>>
    var outboundLast: map<int, int>
    var consumed: nat

    function State(): FoldState
      reads this
    {
      FoldState(arrivals, turnChat, inboundTop, outboundLast, consumed)
    }

    constructor (f: FoldState)
      ensures State() == f
    {
      arrivals, turnChat, inboundTop, outboundLast := f.arrivals, f.turnChat, f.inboundTop, f.outboundLast;
      consumed := f.consumed;
    }

    /** The `for (const a of arrivals.values())` walk of the outbound and decision rows. */
    method TouchTurn(row: Row)
      requires row.Outbound? || row.Decision?
      modifies `arrivals
      ensures arrivals == map u | u in old(arrivals) :: Touch(u, old(arrivals)[u], row)
    {
      var todo := arrivals.Keys;
      while todo != {}
        invariant arrivals.Keys == old(arrivals).Keys && todo <= arrivals.Keys
        invariant forall u | u in arrivals ::
                    arrivals[u] == if u in todo then old(arrivals)[u] else Touch(u, old(arrivals)[u], row)
        decreases |todo|
      {
        ghost var some := PickOne(todo);
        assert some in todo;
        var u :| u in todo;
        var a := arrivals[u];
        if a.turnId == Some(row.turnId) {
          arrivals := arrivals[u := if row.Outbound? then a.(turnReplied := true)
                                    else a.(decision := Some(TurnDecision(row.plan, row.dueBy, row.decidedBy)))];
        }
        todo := todo - {u};
      }
    }

    method ApplyRow(row: Row)
      modifies this
      ensures State() == Apply(old(State()), row)
    {
      match row {
        case Link(_, v, t) =>
          if v in arrivals {
            turnChat := turnChat[t := arrivals[v].msg.chatId];
            arrivals := arrivals[v := arrivals[v].(turnId := Some(t))];
          }
        case Outbound(ts, t, _, _) =>
          TouchTurn(row);
          if t in turnChat {
            var chat := turnChat[t];
            var seen := if chat in outboundLast then outboundLast[chat] else 0;
            outboundLast := outboundLast[chat := if seen >= ts then seen else ts];
          }
        case Decision(_, _, _, _, _, _) =>
          TouchTurn(row);
        case Abandoned(_, v, r) =>
          if v in arrivals {
            arrivals := arrivals[v := arrivals[v].(abandoned := Some(r))];
          }
        case Inbound(ts, m) =>
          RecordArrival(ts, m);
          NoteSighting(ts, m);
      }
    }

    method ConsumeRow(row: Row)
      modifies this
      ensures State() == Consume(old(State()), row)
    {
      ApplyRow(row);
      consumed := consumed + 1;
    }

    method RecordArrival(ts: int, m: InboundMsg)
      modifies `arrivals
      ensures arrivals == Apply(old(State()), Inbound(ts, m)).arrivals
    {
      var u := m.updateId;
      if u in arrivals {
        var prev := arrivals[u];
        arrivals := arrivals[u := prev.(msg := if prev.ts <= ts then prev.msg else m,
                                        ts := if prev.ts <= ts then prev.ts else ts,
                                        count := prev.count + 1)];
      } else {
        arrivals := arrivals[u := FirstArrival(ts, m)];
      }
    }

    method NoteSighting(ts: int, m: InboundMsg)
      modifies `inboundTop
      ensures inboundTop == Apply(old(State()), Inbound(ts, m)).inboundTop
    {
      if m.skipped.None? {
        var top := if m.chatId in inboundTop then inboundTop[m.chatId] else [];
        var sorted := SortBy(NewestFirst, top + [Sighting(ts, m.updateId)]);
        inboundTop := inboundTop[m.chatId := Take(sorted, 2)];
      }
    }

    method PruneDone()
      modifies this
      ensures State() == Prune(old(State()))
    {
      ghost var before := arrivals;
      ghost var dropped: set<string> := {};
      var todo := arrivals.Keys;
      while todo != {}
        invariant todo <= before.Keys
        invariant arrivals == map u | u in before && (u in todo || !Done(before[u])) :: before[u]
        invariant dropped <= DoneTurns(before)
        invariant forall u | u in before && u !in todo && Done(before[u]) && before[u].turnId.Some? ::
                    before[u].turnId.value in dropped
        invariant turnChat == old(turnChat) - dropped
        invariant inboundTop == old(inboundTop) && outboundLast == old(outboundLast) && consumed == old(consumed)
        decreases |todo|
      {
        ghost var some := PickOne(todo);
        assert some in todo;
        var u :| u in todo;
        var a := arrivals[u];
        if Done(a) {
          arrivals := arrivals - {u};
          if a.turnId.Some? {
            turnChat := turnChat - {a.turnId.value};
            dropped := dropped + {a.turnId.value};
          }
        }
        todo := todo - {u};
      }
      assert dropped == DoneTurns(before);
    }

    /** `[...arrivals.entries()].sort(...)`. */
    method OrderedKeys() returns (ordered: seq<Key>)
      ensures ordered == Ordered(arrivals)
    {
      var todo := arrivals.Keys;
      var keys: seq<Key> := [];
      ghost var listed: set<Key> := {};
      while todo != {}
        invariant todo <= arrivals.Keys
        invariant listed == set u | u in arrivals.Keys - todo :: Key(arrivals[u].ts, u)
        invariant multiset(keys) == multiset(listed)
        decreases |todo|
      {
        ghost var some := PickOne(todo);
        assert some in todo;
        var u :| u in todo;
        var k := Key(arrivals[u].ts, u);
        assert k !in listed;
        keys, listed := keys + [k], listed + {k};
        todo := todo - {u};
      }
      assert listed == Keys(arrivals);
      KeyOrder();
      SortOrderFree(KeyLeq, keys, Listing(listed));
      ordered := SortBy(KeyLeq, keys);
    }

    /** Lists losses then duplicates, each in verdict order, exactly as the verdict table says. */
    method VerdictsOf(now: int, windowMs: int) returns (out: seq<Discrepancy>)
      ensures out == Verdicts(arrivals, now, windowMs)
    {
      var ordered := OrderedKeys();
      OrderedElements(arrivals);
      out := Report(arrivals, ordered, now, windowMs);
    }
  }

  method Report(m: map<int, Arrival>, ordered: seq<Key>, now: int, windowMs: int) returns (out: seq<Discrepancy>)
    requires forall k | k in ordered :: k.id in m
    ensures out == LostIn(m, ordered, now, windowMs) + DuplicatesIn(m, ordered)
  {
    var lost, duplicates := [], [];
    for i := 0 to |ordered|
      invariant lost == LostIn(m, ordered[..i], now, windowMs)
      invariant duplicates == DuplicatesIn(m, ordered[..i])
    {
      var a := m[ordered[i].id];
      assert ordered[..i + 1][..i] == ordered[..i];
      if a.count > 1 {
        duplicates := duplicates + [DuplicateInbound(ordered[i].id)];
      }
      if IsLost(a, now, windowMs) {
        lost := lost + [LostReply(a.msg, now - a.ts, a.turnId)];
      }
    }
    assert ordered[..|ordered|] == ordered;
    out := lost + duplicates;
  }
}
