/**
 * What a reconcile reports and in which order: the losses first, the oldest first, and nothing
 * twice; and what pruning may forget: exactly what no reconcile would report.
 */
module VerdictLaws {
  import opened Orders
  import opened LedgerRows
  import opened LedgerFold
  import opened LedgerRuns

  predicate LongerLost(x: Discrepancy, y: Discrepancy) {
    x.LostReply? && y.LostReply? &&
    (x.ageMs > y.ageMs || (x.ageMs == y.ageMs && x.inbound.updateId < y.inbound.updateId))
  }

  predicate EarlierArrival(m: map<int, Arrival>, u: int, v: int) {
    u in m && v in m && (m[u].ts < m[v].ts || (m[u].ts == m[v].ts && u < v))
  }

  predicate EarlierSeen(m: map<int, Arrival>, x: Discrepancy, y: Discrepancy) {
    x.DuplicateInbound? && y.DuplicateInbound? && EarlierArrival(m, x.updateId, y.updateId)
  }

  /** Keys of the map in strict order. */
  ghost predicate KeysInOrder(m: map<int, Arrival>, ks: seq<Key>) {
    && (forall k | k in ks :: k.id in m && k.ts == m[k.id].ts && m[k.id].msg.updateId == k.id)
    && (forall i, j | 0 <= i < j < |ks| :: EarlierArrival(m, ks[i].id, ks[j].id))
  }

  lemma OrderedOnce(m: map<int, Arrival>)
    ensures NoRepeats(Ordered(m))
  {
    var ks := Ordered(m);
    forall i, j | 0 <= i < j < |ks| ensures ks[i] != ks[j] {
      OrderedIsKeys(m, ks[j]);
      AtTwoPlaces(ks, i, j);
    }
  }

  lemma AtTwoPlaces<T>(s: seq<T>, i: nat, j: nat)
    requires i < j < |s| && multiset(s)[s[j]] <= 1
    ensures s[i] != s[j]
  {
    var front, back := s[..j], s[j..];
    assert s == front + back && front[i] in front && back[0] in back;
    assert multiset(s)[s[j]] == multiset(front)[s[j]] + multiset(back)[s[j]];
  }

  lemma OrderedInOrder(f: FoldState)
    requires Grounded(f)
    ensures KeysInOrder(f.arrivals, Ordered(f.arrivals))
  {
    var m := f.arrivals;
    OrderedElements(m);
    OrderedOnce(m);
    assert Sorted(KeyLeq, Ordered(m)) by { OrderedIsKeys(m, Key(0, 0)); }
    StrictInOrder(m, Ordered(m));
  }

  lemma StrictInOrder(m: map<int, Arrival>, ks: seq<Key>)
    requires NoRepeats(ks) && Sorted(KeyLeq, ks)
    requires forall k | k in ks :: k.id in m && k.ts == m[k.id].ts && m[k.id].msg.updateId == k.id
    ensures KeysInOrder(m, ks)
  {
    forall i, j | 0 <= i < j < |ks| ensures EarlierArrival(m, ks[i].id, ks[j].id) {
      assert ks[i] in ks && ks[j] in ks && KeyLeq(ks[i], ks[j]) && ks[i] != ks[j];
    }
  }

  /** A key after all the others of an ordered list. */
  lemma LastKey(m: map<int, Arrival>, init: seq<Key>, last: Key)
    requires KeysInOrder(m, init + [last])
    ensures KeysInOrder(m, init) && last.id in m && last.ts == m[last.id].ts && m[last.id].msg.updateId == last.id
    ensures forall k | k in init :: EarlierArrival(m, k.id, last.id)
  {
    var ks := init + [last];
    assert ks[|init|] == last && last in ks;
    forall i | 0 <= i < |init| ensures ks[i] == init[i] && init[i] in ks {}
    forall k | k in init ensures EarlierArrival(m, k.id, last.id) {
      var i :| 0 <= i < |init| && init[i] == k;
      assert EarlierArrival(m, ks[i].id, ks[|init|].id);
    }
  }

  ghost predicate LossesOf(m: map<int, Arrival>, ks: seq<Key>, ds: seq<Discrepancy>, now: int) {
    && (forall d | d in ds :: d.LostReply? && Key(now - d.ageMs, d.inbound.updateId) in ks)
    && (forall i, j | 0 <= i < j < |ds| :: LongerLost(ds[i], ds[j]))
  }

  lemma LossesNext(m: map<int, Arrival>, init: seq<Key>, last: Key, ds: seq<Discrepancy>, d: Discrepancy, now: int)
    requires LossesOf(m, init, ds, now) && KeysInOrder(m, init + [last])
    requires d.LostReply? && Key(now - d.ageMs, d.inbound.updateId) == last
    ensures LossesOf(m, init + [last], ds + [d], now)
  {
    LastKey(m, init, last);
    forall x | x in ds ensures LongerLost(x, d) {
      var k := Key(now - x.ageMs, x.inbound.updateId);
      assert k in init && EarlierArrival(m, k.id, last.id);
      assert k in init + [last] && m[k.id].ts == k.ts;
    }
  }

  lemma {:induction false} LossesInOrder(m: map<int, Arrival>, ks: seq<Key>, now: int, windowMs: int)
    requires KeysInOrder(m, ks)
    ensures LossesOf(m, ks, LostIn(m, ks, now, windowMs), now)
    decreases |ks|
  {
    if ks != [] {
      var init, last := ks[..|ks| - 1], ks[|ks| - 1];
      assert ks == init + [last];
      LastKey(m, init, last);
      LossesInOrder(m, init, now, windowMs);
      LostInNext(m, init, last, now, windowMs);
      LossesAfter(m, init, last, LostIn(m, init, now, windowMs), now, windowMs);
    }
  }

  lemma LossesAfter(m: map<int, Arrival>, init: seq<Key>, last: Key, ds: seq<Discrepancy>, now: int, windowMs: int)
    requires LossesOf(m, init, ds, now) && KeysInOrder(m, init + [last]) && last.id in m
    ensures LossesOf(m, init + [last], ds + LostAt(m[last.id], now, windowMs), now)
  {
    LastKey(m, init, last);
    if IsLost(m[last.id], now, windowMs) {
      LossesNext(m, init, last, ds, LostReply(m[last.id].msg, now - m[last.id].ts, m[last.id].turnId), now);
    } else {
      LossesStay(m, init, last, ds, now);
      assert ds + LostAt(m[last.id], now, windowMs) == ds;
    }
  }

  lemma LossesStay(m: map<int, Arrival>, init: seq<Key>, last: Key, ds: seq<Discrepancy>, now: int)
    requires LossesOf(m, init, ds, now)
    ensures LossesOf(m, init + [last], ds, now)
  {
  }

  lemma LostInNext(m: map<int, Arrival>, init: seq<Key>, last: Key, now: int, windowMs: int)
    requires forall k | k in init + [last] :: k.id in m
    ensures LostIn(m, init + [last], now, windowMs) == LostIn(m, init, now, windowMs) + LostAt(m[last.id], now, windowMs)
  {
    assert (init + [last])[..|init|] == init;
  }

  ghost predicate DuplicatesOf(m: map<int, Arrival>, ks: seq<Key>, ds: seq<Discrepancy>) {
    && (forall d | d in ds :: d.DuplicateInbound? && d.updateId in m && Key(m[d.updateId].ts, d.updateId) in ks)
    && (forall i, j | 0 <= i < j < |ds| :: EarlierSeen(m, ds[i], ds[j]))
  }

  lemma DuplicatesNext(m: map<int, Arrival>, init: seq<Key>, last: Key, ds: seq<Discrepancy>)
    requires DuplicatesOf(m, init, ds) && KeysInOrder(m, init + [last])
    ensures DuplicatesOf(m, init + [last], ds + [DuplicateInbound(last.id)])
  {
    LastKey(m, init, last);
    forall x | x in ds ensures EarlierSeen(m, x, DuplicateInbound(last.id)) {
      assert Key(m[x.updateId].ts, x.updateId) in init;
    }
  }

  lemma {:induction false} DuplicatesInOrder(m: map<int, Arrival>, ks: seq<Key>)
    requires KeysInOrder(m, ks)
    ensures DuplicatesOf(m, ks, DuplicatesIn(m, ks))
    decreases |ks|
  {
    if ks != [] {
      var init, last := ks[..|ks| - 1], ks[|ks| - 1];
      assert ks == init + [last];
      LastKey(m, init, last);
      DuplicatesInOrder(m, init);
      if m[last.id].count > 1 {
        DuplicatesNext(m, init, last, DuplicatesIn(m, init));
      } else {
        assert DuplicatesIn(m, ks) == DuplicatesIn(m, init);
      }
    }
  }

  lemma StepGrounded(s: Ledger, op: Op)
    requires Steady(s) && Legal(s, op) && Grounded(CatchUp(s))
    ensures Steady(Step(s, op)) && Grounded(CatchUp(Step(s, op)))
  {
    StepCaught(s, op);
    if AppendedBy(op).Some? {
      GroundedStep(CatchUp(s), AppendedBy(op).value);
    }
  }

  lemma {:induction false} RunGrounded(s: Ledger, run: seq<Op>)
    requires Steady(s) && LegalRun(s, run) && Grounded(CatchUp(s))
    ensures Grounded(CatchUp(Execute(s, run)))
    decreases |run|
  {
    if run != [] {
      StepGrounded(s, run[0]);
      ExecuteFirst(s, run);
      RunGrounded(Step(s, run[0]), run[1..]);
    }
  }

  ghost predicate InOrder(m: map<int, Arrival>, x: Discrepancy, y: Discrepancy) {
    && (y.LostReply? ==> LongerLost(x, y))
    && (x.DuplicateInbound? ==> EarlierSeen(m, x, y))
  }

  lemma ListsInOrder(m: map<int, Arrival>, ks: seq<Key>, losses: seq<Discrepancy>, doubles: seq<Discrepancy>, now: int,
                     i: nat, j: nat)
    requires LossesOf(m, ks, losses, now) && DuplicatesOf(m, ks, doubles) && i < j < |losses + doubles|
    ensures InOrder(m, (losses + doubles)[i], (losses + doubles)[j])
  {
    var ds := losses + doubles;
    assert ds[i] == if i < |losses| then losses[i] else doubles[i - |losses|];
    assert ds[j] == if j < |losses| then losses[j] else doubles[j - |losses|];
    if i < |losses| <= j {
      assert losses[i] in losses && doubles[j - |losses|] in doubles;
    }
  }

  lemma FoldInOrder(f: FoldState, now: int, windowMs: int, i: nat, j: nat)
    requires Grounded(f) && i < j < |Verdicts(f.arrivals, now, windowMs)|
    ensures InOrder(f.arrivals, Verdicts(f.arrivals, now, windowMs)[i], Verdicts(f.arrivals, now, windowMs)[j])
  {
    var m, ks := f.arrivals, Ordered(f.arrivals);
    OrderedInOrder(f);
    LossesInOrder(m, ks, now, windowMs);
    DuplicatesInOrder(m, ks);
    ListsInOrder(m, ks, LostIn(m, ks, now, windowMs), DuplicatesIn(m, ks), now, i, j);
  }

  /**
   * After every legal run of the ledger, of two reports the later is a loss only if the earlier is a
   * loss that is older, or as old with the lower id; and the earlier is a redelivery only if the
   * later is one that arrived later, or with it and has the higher id. So nothing is reported twice.
   */
  lemma ReportedOldestFirst(run: seq<Op>, now: int, windowMs: int, i: nat, j: nat)
    requires LegalRun(FRESH, run) && i < j < |Reported(Execute(FRESH, run), now, windowMs)|
    ensures var ds := Reported(Execute(FRESH, run), now, windowMs);
            InOrder(CatchUp(Execute(FRESH, run)).arrivals, ds[i], ds[j]) && ds[i] != ds[j]
  {
    var s := Execute(FRESH, run);
    assert Grounded(CatchUp(s)) by { RunGrounded(FRESH, run); }
    FoldInOrder(CatchUp(s), now, windowMs, i, j);
  }

  // ---------------------------------------------------------------------------
  // What pruning forgets
  // ---------------------------------------------------------------------------

  predicate ReportedAt(m: map<int, Arrival>, u: int, now: int, windowMs: int)
    requires u in m
  {
    LostAt(m[u], now, windowMs) != [] || DuplicateAt(u, m[u]) != []
  }

  /** A time late enough for any promise of the arrival's turn to have run out. */
  function LateFor(a: Arrival, windowMs: int): int {
    var due := if a.decision.Some? && a.decision.value.dueBy.Some? then a.decision.value.dueBy.value else 0;
    if a.ts + windowMs >= due then a.ts + windowMs + 1 else due
  }

  /**
   * Pruning lets an update go exactly when no reconcile, at no time, would report it as it stands,
   * as lost or as redelivered; of what it keeps it changes nothing.
   */
  lemma ForgottenIffNeverReported(f: FoldState, u: int, windowMs: int)
    requires Grounded(f) && u in f.arrivals
    ensures u !in Prune(f).arrivals <==> forall now :: !ReportedAt(f.arrivals, u, now, windowMs)
    ensures u in Prune(f).arrivals ==> Prune(f).arrivals[u] == f.arrivals[u]
  {
    var a := f.arrivals[u];
    assert !Done(a) ==> ReportedAt(f.arrivals, u, LateFor(a, windowMs), windowMs);
  }
}
