/**
 * The worker pool of a derive run. Hands share the claim counter, the failure list and the written
 * list; a turn of a hand is what it does between two suspensions. The final manifest and the
 * counts are those of the sequential run, whatever the interleaving.
 */
module WorkerPool {
  import opened Orders
  import opened Enumerate
  import opened DeriveRun

  const MAX_ATTEMPTS := 2

  datatype Stage = GenerateStage | ParseStage | JudgeStage

  /** What one attempt at a target comes to: a draft to attest, or the stage it failed at. */
  datatype Attempt = Accept(draft: Entry) | Reject(stage: Stage)

  type Tries = (Expected, nat) -> Attempt

  datatype Verdict = Kept(entry: Entry) | Discarded(stage: Stage)

  datatype Failure = Failure(deriveKey: string, attempt: nat, stage: Stage)

  /** The entry of an accepted draft carries its target's key and generator, and the judge's pass. */
  function Attested(t: Expected, draft: Entry): Entry {
    draft.(deriveKey := t.target.deriveKey, generator := t.name, pass := true)
  }

  /** A target on its own: retried once, then discarded for the reason of its last failure. */
  function VerdictOf(t: Expected, tries: Tries): Verdict {
    match tries(t, 1)
    case Accept(draft) => Verdict.Kept(Attested(t, draft))
    case Reject(_) =>
      match tries(t, 2)
      case Accept(draft) => Verdict.Kept(Attested(t, draft))
      case Reject(stage) => Discarded(stage)
  }

  function OutcomeOf(tries: Tries): Outcome {
    (t: Expected) =>
      match VerdictOf(t, tries)
      case Kept(e) => Some(e)
      case Discarded(_) => None
  }

  /** The draft of the first of the two tries that is accepted. */
  predicate FirstAccepted(t: Expected, tries: Tries, draft: Entry) {
    tries(t, 1) == Accept(draft) || (tries(t, 1).Reject? && tries(t, 2) == Accept(draft))
  }

  /**
   * A target gets an entry exactly when one of its two tries is accepted: the first accepted draft,
   * under the target's own key and generator, marked as passed.
   */
  lemma OutcomeIsFirstAccepted(t: Expected, tries: Tries)
    ensures OutcomeOf(tries)(t).Some? <==> tries(t, 1).Accept? || tries(t, 2).Accept?
    ensures OutcomeOf(tries)(t).Some? ==>
              var e := OutcomeOf(tries)(t).value;
              && e.deriveKey == t.target.deriveKey && e.generator == t.name && e.pass
              && exists draft :: FirstAccepted(t, tries, draft) && e.id == draft.id && e.scene == draft.scene
  {
    if tries(t, 1).Accept? {
      assert FirstAccepted(t, tries, tries(t, 1).draft);
    } else if tries(t, 2).Accept? {
      assert FirstAccepted(t, tries, tries(t, 2).draft);
    }
  }

  /** Otherwise it is discarded, for the stage at which the second try failed. */
  lemma DiscardedForTheLastStage(t: Expected, tries: Tries, stage: Stage)
    ensures VerdictOf(t, tries) == Discarded(stage) <==>
            tries(t, 1).Reject? && tries(t, 2).Reject? && tries(t, 2).stage == stage
  {
  }

  // ---------------------------------------------------------------------------
  // Flattened lists over permuted positions
  // ---------------------------------------------------------------------------

  function FlatMap<T>(f: nat -> seq<T>, s: seq<nat>): seq<T>
    decreases |s|
  {
    if s == [] then [] else FlatMap(f, s[..|s| - 1]) + f(s[|s| - 1])
  }

  lemma {:induction false} FlatAppend<T>(f: nat -> seq<T>, a: seq<nat>, b: seq<nat>)
    ensures FlatMap(f, a + b) == FlatMap(f, a) + FlatMap(f, b)
    decreases |b|
  {
    if b == [] {
      assert a + b == a;
    } else {
      assert (a + b)[..|a + b| - 1] == a + b[..|b| - 1];
      FlatAppend(f, a, b[..|b| - 1]);
    }
  }

  lemma WithoutOne<T>(s: seq<T>, k: nat)
    requires k < |s|
    ensures s == s[..k] + [s[k]] + s[k + 1..]
    ensures multiset(s[..k] + s[k + 1..]) == multiset(s) - multiset{s[k]}
  {
    assert s == s[..k] + [s[k]] + s[k + 1..];
  }

  lemma FlatAround<T>(f: nat -> seq<T>, before: seq<nat>, i: nat, rest: seq<nat>)
    ensures FlatMap(f, before + [i] + rest) == FlatMap(f, before) + f(i) + FlatMap(f, rest)
  {
    FlatAppend(f, before + [i], rest);
    FlatSnoc(f, before, i);
  }

  lemma FlatWithout<T>(f: nat -> seq<T>, s: seq<nat>, k: nat)
    requires k < |s|
    ensures multiset(s[..k] + s[k + 1..]) == multiset(s) - multiset{s[k]}
    ensures multiset(FlatMap(f, s)) == multiset(FlatMap(f, s[..k] + s[k + 1..])) + multiset(f(s[k]))
  {
    WithoutOne(s, k);
    assert FlatMap(f, s) == FlatMap(f, s[..k]) + f(s[k]) + FlatMap(f, s[k + 1..]) by {
      FlatAround(f, s[..k], s[k], s[k + 1..]);
    }
    FlatAppend(f, s[..k], s[k + 1..]);
  }

  lemma FlatSnoc<T>(f: nat -> seq<T>, s: seq<nat>, i: nat)
    ensures FlatMap(f, s + [i]) == FlatMap(f, s) + f(i)
  {
    assert (s + [i])[..|s|] == s;
  }

  lemma {:induction false} FlatPermuted<T>(f: nat -> seq<T>, a: seq<nat>, b: seq<nat>)
    requires multiset(a) == multiset(b)
    ensures multiset(FlatMap(f, a)) == multiset(FlatMap(f, b))
    decreases |a|
  {
    if a == [] {
      assert b == [] by { MultisetIn(a, b); }
    } else {
      var init, x := a[..|a| - 1], a[|a| - 1];
      assert x in b by { MultisetIn(a, b); }
      var k :| 0 <= k < |b| && b[k] == x;
      FlatWithout(f, b, k);
      assert multiset(init) == multiset(a) - multiset{x} by { assert a == init + [x]; }
      FlatPermuted(f, init, b[..k] + b[k + 1..]);
    }
  }

  lemma FlatPermutedSize<T>(f: nat -> seq<T>, a: seq<nat>, b: seq<nat>)
    requires multiset(a) == multiset(b)
    ensures |FlatMap(f, a)| == |FlatMap(f, b)|
  {
    FlatPermuted(f, a, b);
    assert |multiset(FlatMap(f, a))| == |FlatMap(f, a)| && |multiset(FlatMap(f, b))| == |FlatMap(f, b)|;
  }

  // ---------------------------------------------------------------------------
  // The pool
  // ---------------------------------------------------------------------------

  datatype Hand = AtTop | Trying(at: nat, attempt: nat) | Writing(at: nat, entry: Entry) | Finished

  /** `settled` lists the positions dealt with, in the order they were. */
  datatype PoolState = PoolState(
    next: nat,
    hands: seq<Hand>,
    failures: seq<Failure>,
    written: seq<Entry>,
    judgeFailed: nat,
    parseFailed: nat,
    settled: seq<nat>)

  function LastStage(failures: seq<Failure>, deriveKey: string): Stage
    decreases |failures|
  {
    if failures == [] then GenerateStage
    else
      var f := failures[|failures| - 1];
      if f.deriveKey == deriveKey then f.stage else LastStage(failures[..|failures| - 1], deriveKey)
  }

  function Start(hands: nat): PoolState {
    PoolState(0, seq(hands, _ => AtTop), [], [], 0, 0, [])
  }

  function Claim(s: PoolState, w: nat, dirty: seq<Expected>): PoolState
    requires w < |s.hands|
  {
    s.(next := s.next + 1, hands := s.hands[w := if s.next < |dirty| then Trying(s.next, 1) else Finished])
  }

  function Discard(s: PoolState, w: nat, at: nat, stage: Stage): PoolState
    requires w < |s.hands|
  {
    var settled := s.(hands := s.hands[w := AtTop], settled := s.settled + [at]);
    if stage == JudgeStage then settled.(judgeFailed := s.judgeFailed + 1)
    else settled.(parseFailed := s.parseFailed + 1)
  }

  /** One turn of hand `w`. */
  function Turn(s: PoolState, w: nat, dirty: seq<Expected>, tries: Tries): PoolState {
    if w >= |s.hands| then s
    else
      match s.hands[w]
      case Finished => s
      case AtTop => Claim(s, w, dirty)
      case Writing(at, e) =>
        s.(hands := s.hands[w := AtTop], written := s.written + [e], settled := s.settled + [at])
      case Trying(at, attempt) =>
        if at >= |dirty| then s
        else
          match tries(dirty[at], attempt)
          case Accept(draft) => s.(hands := s.hands[w := Writing(at, Attested(dirty[at], draft))])
          case Reject(stage) =>
            var key := dirty[at].target.deriveKey;
            var failed := s.(failures := s.failures + [Failure(key, attempt, stage)]);
            if attempt < MAX_ATTEMPTS then failed.(hands := s.hands[w := Trying(at, attempt + 1)])
            else Discard(failed, w, at, LastStage(failed.failures, key))
  }

  // ---------------------------------------------------------------------------
  // What every interleaving keeps
  // ---------------------------------------------------------------------------

  function WrittenAt(dirty: seq<Expected>, tries: Tries): nat -> seq<Entry> {
    (i: nat) =>
      if i < |dirty| && VerdictOf(dirty[i], tries).Kept? then [VerdictOf(dirty[i], tries).entry] else []
  }

  function JudgedOutAt(dirty: seq<Expected>, tries: Tries): nat -> seq<nat> {
    (i: nat) => if i < |dirty| && VerdictOf(dirty[i], tries) == Discarded(JudgeStage) then [i] else []
  }

  function ParsedOutAt(dirty: seq<Expected>, tries: Tries): nat -> seq<nat> {
    (i: nat) =>
      if i < |dirty| && VerdictOf(dirty[i], tries).Discarded? && VerdictOf(dirty[i], tries) != Discarded(JudgeStage)
      then [i] else []
  }

  predicate Holds(h: Hand, i: nat) {
    (h.Trying? || h.Writing?) && h.at == i
  }

  /** A hand at work holds a claimed target, and is where that target's own attempts have led. */
  predicate HandOk(h: Hand, next: nat, dirty: seq<Expected>, tries: Tries) {
    match h
    case AtTop => true
    case Finished => next >= |dirty|
    case Trying(i, a) =>
      i < next && i < |dirty| && (a == 1 || (a == 2 && tries(dirty[i], 1).Reject?))
    case Writing(i, e) => i < next && i < |dirty| && VerdictOf(dirty[i], tries) == Verdict.Kept(e)
  }

  ghost predicate HandsOk(s: PoolState, dirty: seq<Expected>, tries: Tries) {
    forall w | 0 <= w < |s.hands| :: HandOk(s.hands[w], s.next, dirty, tries)
  }

  ghost predicate Claimed(s: PoolState, i: nat) {
    i in s.settled || exists w :: 0 <= w < |s.hands| && Holds(s.hands[w], i)
  }

  /** Every claimed target is with exactly one hand or settled once; no other is. */
  ghost predicate ClaimedOnce(s: PoolState, dirty: seq<Expected>) {
    && (forall i: nat :: i < s.next && i < |dirty| <==> Claimed(s, i))
    && (forall v, w, i: nat | 0 <= v < |s.hands| && 0 <= w < |s.hands| && Holds(s.hands[v], i) && Holds(s.hands[w], i) :: v == w)
    && (forall w, i: nat | 0 <= w < |s.hands| && Holds(s.hands[w], i) :: i !in s.settled)
    && (forall i: nat :: multiset(s.settled)[i] <= 1)
  }

  ghost predicate Tallied(s: PoolState, dirty: seq<Expected>, tries: Tries) {
    && s.written == FlatMap(WrittenAt(dirty, tries), s.settled)
    && s.judgeFailed == |FlatMap(JudgedOutAt(dirty, tries), s.settled)|
    && s.parseFailed == |FlatMap(ParsedOutAt(dirty, tries), s.settled)|
  }

  ghost predicate Inv(s: PoolState, dirty: seq<Expected>, tries: Tries) {
    HandsOk(s, dirty, tries) && ClaimedOnce(s, dirty) && Tallied(s, dirty, tries)
  }

  lemma StartOk(hands: nat, dirty: seq<Expected>, tries: Tries)
    ensures Inv(Start(hands), dirty, tries)
  {
  }

  lemma SettleTallies(s: PoolState, i: nat, dirty: seq<Expected>, tries: Tries)
    ensures FlatMap(WrittenAt(dirty, tries), s.settled + [i])
            == FlatMap(WrittenAt(dirty, tries), s.settled) + WrittenAt(dirty, tries)(i)
    ensures FlatMap(JudgedOutAt(dirty, tries), s.settled + [i])
            == FlatMap(JudgedOutAt(dirty, tries), s.settled) + JudgedOutAt(dirty, tries)(i)
    ensures FlatMap(ParsedOutAt(dirty, tries), s.settled + [i])
            == FlatMap(ParsedOutAt(dirty, tries), s.settled) + ParsedOutAt(dirty, tries)(i)
  {
    FlatSnoc(WrittenAt(dirty, tries), s.settled, i);
    FlatSnoc(JudgedOutAt(dirty, tries), s.settled, i);
    FlatSnoc(ParsedOutAt(dirty, tries), s.settled, i);
  }

  lemma ClaimKeepsClaims(s: PoolState, w: nat, dirty: seq<Expected>)
    requires ClaimedOnce(s, dirty) && w < |s.hands| && s.hands[w] == AtTop
    ensures ClaimedOnce(Claim(s, w, dirty), dirty)
  {
    var t := Claim(s, w, dirty);
    forall i: nat ensures i < t.next && i < |dirty| <==> Claimed(t, i) {
      if Claimed(s, i) && i !in s.settled {
        var v :| 0 <= v < |s.hands| && Holds(s.hands[v], i);
        assert Holds(t.hands[v], i);
      }
      if i == s.next && i < |dirty| {
        assert Holds(t.hands[w], i);
      }
      if Claimed(t, i) && i !in t.settled {
        var v :| 0 <= v < |t.hands| && Holds(t.hands[v], i);
        assert v != w ==> Holds(s.hands[v], i);
      }
    }
    forall v, i: nat | 0 <= v < |s.hands| && Holds(s.hands[v], i) ensures i < s.next {
      assert Claimed(s, i);
    }
    forall i: nat | i in s.settled ensures i < s.next {
      assert Claimed(s, i);
    }
  }

  /** A hand goes on with the target it holds. */
  lemma MoveKeepsClaims(s: PoolState, w: nat, h: Hand, dirty: seq<Expected>)
    requires ClaimedOnce(s, dirty) && w < |s.hands|
    requires forall i: nat :: Holds(h, i) == Holds(s.hands[w], i)
    ensures ClaimedOnce(s.(hands := s.hands[w := h]), dirty)
  {
    var t := s.(hands := s.hands[w := h]);
    forall i: nat ensures Claimed(t, i) <==> Claimed(s, i) {
      assert forall v | 0 <= v < |s.hands| :: Holds(t.hands[v], i) == Holds(s.hands[v], i);
    }
  }

  /** A hand lays down the target it held, settled. */
  lemma SettleKeepsClaims(s: PoolState, w: nat, at: nat, dirty: seq<Expected>)
    requires ClaimedOnce(s, dirty) && w < |s.hands| && Holds(s.hands[w], at)
    ensures ClaimedOnce(s.(hands := s.hands[w := AtTop], settled := s.settled + [at]), dirty)
  {
    var t := s.(hands := s.hands[w := AtTop], settled := s.settled + [at]);
    assert at !in s.settled && at !in multiset(s.settled);
    forall i: nat ensures Claimed(t, i) <==> Claimed(s, i) {
      if i != at && Claimed(s, i) && i !in s.settled {
        var v :| 0 <= v < |s.hands| && Holds(s.hands[v], i);
        assert Holds(t.hands[v], i);
      }
      if i != at && Claimed(t, i) && i !in t.settled {
        var v :| 0 <= v < |t.hands| && Holds(t.hands[v], i);
        assert Holds(s.hands[v], i);
      }
    }
    forall v, i: nat | 0 <= v < |t.hands| && Holds(t.hands[v], i) ensures Holds(s.hands[v], i) && i !in t.settled {
      assert v != w;
    }
    assert t.settled[|s.settled|] == at;
  }

  lemma ClaimedIgnores(s: PoolState, t: PoolState, dirty: seq<Expected>)
    requires ClaimedOnce(s, dirty) && t.next == s.next && t.hands == s.hands && t.settled == s.settled
    ensures ClaimedOnce(t, dirty)
  {
    forall i: nat ensures Claimed(t, i) <==> Claimed(s, i) {}
  }

  lemma TurnKeepsInv(s: PoolState, w: nat, dirty: seq<Expected>, tries: Tries)
    requires Inv(s, dirty, tries)
    ensures Inv(Turn(s, w, dirty, tries), dirty, tries)
  {
    if w < |s.hands| {
      match s.hands[w]
      case Finished =>
      case AtTop => ClaimKeepsInv(s, w, dirty, tries);
      case Writing(at, e) => WriteKeepsInv(s, w, dirty, tries);
      case Trying(at, attempt) => TryKeepsInv(s, w, dirty, tries);
    }
  }

  lemma ClaimKeepsInv(s: PoolState, w: nat, dirty: seq<Expected>, tries: Tries)
    requires Inv(s, dirty, tries) && w < |s.hands| && s.hands[w] == AtTop
    ensures Inv(Turn(s, w, dirty, tries), dirty, tries)
  {
    ClaimKeepsClaims(s, w, dirty);
  }

  lemma WriteKeepsInv(s: PoolState, w: nat, dirty: seq<Expected>, tries: Tries)
    requires Inv(s, dirty, tries) && w < |s.hands| && s.hands[w].Writing?
    ensures Inv(Turn(s, w, dirty, tries), dirty, tries)
  {
    var at := s.hands[w].at;
    SettleKeepsClaims(s, w, at, dirty);
    ClaimedIgnores(s.(hands := s.hands[w := AtTop], settled := s.settled + [at]), Turn(s, w, dirty, tries), dirty);
    SettleTallies(s, at, dirty, tries);
  }

  /** The hand goes on with its target: the draft was accepted, or there is another attempt. */
  lemma GoOnKeepsInv(s: PoolState, w: nat, dirty: seq<Expected>, tries: Tries)
    requires Inv(s, dirty, tries) && w < |s.hands| && s.hands[w].Trying?
    requires HandOk(s.hands[w], s.next, dirty, tries)
    requires tries(dirty[s.hands[w].at], s.hands[w].attempt).Accept? || s.hands[w].attempt < MAX_ATTEMPTS
    ensures Inv(Turn(s, w, dirty, tries), dirty, tries)
  {
    var t := Turn(s, w, dirty, tries);
    assert HandOk(t.hands[w], s.next, dirty, tries);
    assert ClaimedOnce(t, dirty) by {
      MoveKeepsClaims(s, w, t.hands[w], dirty);
      ClaimedIgnores(s.(hands := s.hands[w := t.hands[w]]), t, dirty);
    }
  }

  /** The second attempt failed too: the target is discarded for that attempt's reason. */
  lemma DiscardKeepsInv(s: PoolState, w: nat, dirty: seq<Expected>, tries: Tries)
    requires Inv(s, dirty, tries) && w < |s.hands| && s.hands[w].Trying?
    requires HandOk(s.hands[w], s.next, dirty, tries)
    requires tries(dirty[s.hands[w].at], s.hands[w].attempt).Reject? && s.hands[w].attempt == MAX_ATTEMPTS
    ensures Inv(Turn(s, w, dirty, tries), dirty, tries)
  {
    var at := s.hands[w].at;
    var stage := tries(dirty[at], MAX_ATTEMPTS).stage;
    var failed := s.(failures := s.failures + [Failure(dirty[at].target.deriveKey, MAX_ATTEMPTS, stage)]);
    assert Turn(s, w, dirty, tries) == Discard(failed, w, at, stage) by {
      LastStageIsOwn(s.failures, dirty[at].target.deriveKey, MAX_ATTEMPTS, stage);
    }
    assert VerdictOf(dirty[at], tries) == Discarded(stage);
    DiscardSettles(s, failed, w, at, stage, dirty, tries);
  }

  lemma DiscardSettles(s: PoolState, failed: PoolState, w: nat, at: nat, stage: Stage, dirty: seq<Expected>, tries: Tries)
    requires Inv(s, dirty, tries) && failed == s.(failures := failed.failures)
    requires w < |s.hands| && Holds(s.hands[w], at) && at < |dirty| && VerdictOf(dirty[at], tries) == Discarded(stage)
    ensures Inv(Discard(failed, w, at, stage), dirty, tries)
  {
    DiscardClaims(s, failed, w, at, stage, dirty);
    DiscardTallies(s, failed, w, at, stage, dirty, tries);
  }

  lemma DiscardClaims(s: PoolState, failed: PoolState, w: nat, at: nat, stage: Stage, dirty: seq<Expected>)
    requires ClaimedOnce(s, dirty) && failed == s.(failures := failed.failures) && w < |s.hands| && Holds(s.hands[w], at)
    ensures ClaimedOnce(Discard(failed, w, at, stage), dirty)
  {
    SettleKeepsClaims(s, w, at, dirty);
    ClaimedIgnores(s.(hands := s.hands[w := AtTop], settled := s.settled + [at]), Discard(failed, w, at, stage), dirty);
  }

  lemma DiscardTallies(s: PoolState, failed: PoolState, w: nat, at: nat, stage: Stage, dirty: seq<Expected>, tries: Tries)
    requires Tallied(s, dirty, tries) && failed == s.(failures := failed.failures) && w < |s.hands|
    requires at < |dirty| && VerdictOf(dirty[at], tries) == Discarded(stage)
    ensures Tallied(Discard(failed, w, at, stage), dirty, tries)
  {
    SettleTallies(s, at, dirty, tries);
  }

  /** Every target that ends discarded lands its own attempt's stage, not a neighbour's. */
  lemma LastStageIsOwn(failures: seq<Failure>, deriveKey: string, attempt: nat, stage: Stage)
    ensures LastStage(failures + [Failure(deriveKey, attempt, stage)], deriveKey) == stage
  {
  }

  lemma TryKeepsInv(s: PoolState, w: nat, dirty: seq<Expected>, tries: Tries)
    requires Inv(s, dirty, tries) && w < |s.hands| && s.hands[w].Trying?
    ensures Inv(Turn(s, w, dirty, tries), dirty, tries)
  {
    assert HandOk(s.hands[w], s.next, dirty, tries);
    if tries(dirty[s.hands[w].at], s.hands[w].attempt).Accept? || s.hands[w].attempt < MAX_ATTEMPTS {
      GoOnKeepsInv(s, w, dirty, tries);
    } else {
      DiscardKeepsInv(s, w, dirty, tries);
    }
  }

  // ---------------------------------------------------------------------------
  // Progress
  // ---------------------------------------------------------------------------

  /** An upper bound on the turns a hand still takes for what it holds. */
  function Weight(h: Hand): nat {
    match h
    case Finished => 0
    case AtTop => 1
    case Writing(_, _) => 2
    case Trying(_, attempt) => if attempt < MAX_ATTEMPTS then 4 else 3
  }

  function Weights(hands: seq<Hand>): nat
    decreases |hands|
  {
    if hands == [] then 0 else Weights(hands[..|hands| - 1]) + Weight(hands[|hands| - 1])
  }

  function TurnsLeft(s: PoolState, dirty: seq<Expected>): nat {
    (if s.next < |dirty| then 5 * (|dirty| - s.next) else 0) + Weights(s.hands)
  }

  lemma {:induction false} WeightsUpdated(hands: seq<Hand>, w: nat, h: Hand)
    requires w < |hands|
    ensures Weights(hands[w := h]) + Weight(hands[w]) == Weights(hands) + Weight(h)
    decreases |hands|
  {
    var last := |hands| - 1;
    if w < last {
      WeightsUpdated(hands[..last], w, h);
      assert hands[w := h][..last] == hands[..last][w := h];
    } else {
      assert hands[w := h][..last] == hands[..last];
    }
  }

  /** Every turn of a hand that is not finished brings the drain nearer to its end. */
  lemma TurnProgresses(s: PoolState, w: nat, dirty: seq<Expected>, tries: Tries)
    requires HandsOk(s, dirty, tries) && w < |s.hands| && !s.hands[w].Finished?
    ensures TurnsLeft(Turn(s, w, dirty, tries), dirty) < TurnsLeft(s, dirty)
  {
    assert HandOk(s.hands[w], s.next, dirty, tries);
    WeightsUpdated(s.hands, w, Turn(s, w, dirty, tries).hands[w]);
  }

  // ---------------------------------------------------------------------------
  // The drained pool
  // ---------------------------------------------------------------------------

  ghost predicate Drained(s: PoolState, dirty: seq<Expected>, tries: Tries) {
    Inv(s, dirty, tries) && s.hands != [] && forall w | 0 <= w < |s.hands| :: s.hands[w].Finished?
  }

  function Positions(n: nat): seq<nat> {
    seq(n, i => i)
  }

  lemma {:induction false} PositionsOnce(n: nat)
    ensures forall i: nat :: multiset(Positions(n))[i] == if i < n then 1 else 0
  {
    if n > 0 {
      PositionsOnce(n - 1);
      assert Positions(n) == Positions(n - 1) + [n - 1];
    }
  }

  /** Each dirty target was claimed and settled exactly once. */
  lemma EachSettledOnce(s: PoolState, dirty: seq<Expected>, tries: Tries)
    requires Drained(s, dirty, tries)
    ensures multiset(s.settled) == multiset(Positions(|dirty|))
  {
    assert HandOk(s.hands[0], s.next, dirty, tries);
    PositionsOnce(|dirty|);
    forall i: nat ensures multiset(s.settled)[i] == multiset(Positions(|dirty|))[i] {
      assert Claimed(s, i) <==> i in s.settled;
      assert i in s.settled <==> i in multiset(s.settled);
    }
  }

  function OutFor(tries: Tries, judge: bool): Expected -> bool {
    (t: Expected) => VerdictOf(t, tries).Discarded? && (VerdictOf(t, tries).stage == JudgeStage) == judge
  }

  lemma FilterLast<T(!new)>(p: T -> bool, s: seq<T>)
    requires s != []
    ensures var init, last := s[..|s| - 1], s[|s| - 1];
            Filter(p, s) == if p(last) then Filter(p, init) + [last] else Filter(p, init)
  {
    var init, last := s[..|s| - 1], s[|s| - 1];
    assert s == init + [last];
    FilterSnoc(p, init, last);
  }

  /** Taken in order, the positions give the sequential run's list. */
  lemma {:induction false} SequentialWritten(dirty: seq<Expected>, tries: Tries, n: nat)
    requires n <= |dirty|
    ensures FlatMap(WrittenAt(dirty, tries), Positions(n)) == WrittenBy(dirty[..n], OutcomeOf(tries))
  {
    if n > 0 {
      SequentialWritten(dirty, tries, n - 1);
      assert Positions(n) == Positions(n - 1) + [n - 1];
      FlatSnoc(WrittenAt(dirty, tries), Positions(n - 1), n - 1);
      assert dirty[..n][..n - 1] == dirty[..n - 1];
    }
  }

  function OutAt(dirty: seq<Expected>, tries: Tries, judge: bool): nat -> seq<nat> {
    if judge then JudgedOutAt(dirty, tries) else ParsedOutAt(dirty, tries)
  }

  lemma PositionsSnoc(n: nat)
    ensures Positions(n + 1) == Positions(n) + [n]
  {
  }

  lemma OneMoreCounted(f: nat -> seq<nat>, p: Expected -> bool, some: seq<nat>, i: nat, init: seq<Expected>, t: Expected)
    requires |FlatMap(f, some)| == |Filter(p, init)| && |f(i)| == if p(t) then 1 else 0
    ensures |FlatMap(f, some + [i])| == |Filter(p, init + [t])|
  {
    FlatSnoc(f, some, i);
    FilterSnoc(p, init, t);
  }

  lemma {:induction false} FlatCounts(f: nat -> seq<nat>, p: Expected -> bool, dirty: seq<Expected>, n: nat)
    requires n <= |dirty| && forall i: nat | i < |dirty| :: |f(i)| == if p(dirty[i]) then 1 else 0
    ensures |FlatMap(f, Positions(n))| == |Filter(p, dirty[..n])|
  {
    if n > 0 {
      FlatCounts(f, p, dirty, n - 1);
      PositionsSnoc(n - 1);
      assert dirty[..n] == dirty[..n - 1] + [dirty[n - 1]];
      OneMoreCounted(f, p, Positions(n - 1), n - 1, dirty[..n - 1], dirty[n - 1]);
    }
  }

  /** And its counts. */
  lemma SequentialOut(dirty: seq<Expected>, tries: Tries, judge: bool, n: nat)
    requires n <= |dirty|
    ensures |FlatMap(OutAt(dirty, tries, judge), Positions(n))| == |Filter(OutFor(tries, judge), dirty[..n])|
  {
    FlatCounts(OutAt(dirty, tries, judge), OutFor(tries, judge), dirty, n);
  }

  /**
   * However the hands interleaved: the entries written are those of the sequential run, and each
   * discarded target is counted under the stage of its own last failure.
   */
  lemma DrainedIsSequential(s: PoolState, dirty: seq<Expected>, tries: Tries)
    requires Drained(s, dirty, tries)
    ensures multiset(s.written) == multiset(WrittenBy(dirty, OutcomeOf(tries)))
    ensures s.judgeFailed == |Filter(OutFor(tries, true), dirty)|
    ensures s.parseFailed == |Filter(OutFor(tries, false), dirty)|
  {
    var all := Positions(|dirty|);
    EachSettledOnce(s, dirty, tries);
    assert dirty[..|dirty|] == dirty;
    FlatPermuted(WrittenAt(dirty, tries), s.settled, all);
    SequentialWritten(dirty, tries, |dirty|);
    assert s.judgeFailed == |Filter(OutFor(tries, true), dirty)| by {
      FlatPermutedSize(OutAt(dirty, tries, true), s.settled, all);
      SequentialOut(dirty, tries, true, |dirty|);
    }
    assert s.parseFailed == |Filter(OutFor(tries, false), dirty)| by {
      FlatPermutedSize(OutAt(dirty, tries, false), s.settled, all);
      SequentialOut(dirty, tries, false, |dirty|);
    }
  }

  lemma OutcomesAreFaithful(tries: Tries)
    ensures Faithful(OutcomeOf(tries))
  {
  }

  /** Two dirty targets with one key are one target. */
  lemma DirtyKeysDistinct(max: nat, all: seq<Expected>, entries: seq<Entry>, keyOf: KeyOf, t: Expected, u: Expected)
    requires GoodKeys(all, keyOf) && t in Dirty(max, all, entries) && u in Dirty(max, all, entries)
    requires t.target.deriveKey == u.target.deriveKey
    ensures t == u
  {
    DirtyIsKept(max, all, entries);
    assert t in all && u in all;
    var i :| 0 <= i < |all| && all[i] == t;
    var j :| 0 <= j < |all| && all[j] == u;
    assert !KeyRefused(all, keyOf, i) && !KeyRefused(all, keyOf, j);
    assert !RepeatsKey(all, i) && !RepeatsKey(all, j);
  }

  /** So the entries written never tie. */
  lemma WrittenNeverTies(max: nat, all: seq<Expected>, entries: seq<Entry>, keyOf: KeyOf, outcome: Outcome)
    requires GoodKeys(all, keyOf) && Faithful(outcome)
    ensures Antisymmetric(EntryOrder, WrittenBy(Dirty(max, all, entries), outcome))
  {
    var dirty := Dirty(max, all, entries);
    var written := WrittenBy(dirty, outcome);
    WrittenEntries(dirty, outcome);
    forall x, y | x in written && y in written && EntryOrder(x, y) && EntryOrder(y, x) ensures x == y {
      StringOrder(x.deriveKey, y.deriveKey);
      var t :| t in dirty && outcome(t) == Some(x);
      var u :| u in dirty && outcome(u) == Some(y);
      DirtyKeysDistinct(max, all, entries, keyOf, t, u);
    }
  }

  /** However written, the entries of the dirty targets sort into the sequential manifest. */
  lemma WrittenManifest(max: nat, all: seq<Expected>, entries: seq<Entry>, keyOf: KeyOf, outcome: Outcome, written: seq<Entry>)
    requires GoodKeys(all, keyOf) && Faithful(outcome)
    requires multiset(written) == multiset(WrittenBy(Dirty(max, all, entries), outcome))
    ensures SortBy(EntryOrder, Live(all, entries) + written) == EntriesAfter(max, all, entries, outcome)
  {
    var sequential := WrittenBy(Dirty(max, all, entries), outcome);
    EntryOrderTotal();
    WrittenNeverTies(max, all, entries, keyOf, outcome);
    SortOrderFree(EntryOrder, sequential, written);
    SortWithPrefix(EntryOrder, Live(all, entries), written, sequential);
  }

  /** Under every interleaving the sorted manifest is that of the sequential run. */
  lemma DrainedManifest(s: PoolState, max: nat, all: seq<Expected>, entries: seq<Entry>, keyOf: KeyOf, tries: Tries)
    requires GoodKeys(all, keyOf) && Drained(s, Dirty(max, all, entries), tries)
    ensures SortBy(EntryOrder, Live(all, entries) + s.written) == EntriesAfter(max, all, entries, OutcomeOf(tries))
  {
    DrainedIsSequential(s, Dirty(max, all, entries), tries);
    OutcomesAreFaithful(tries);
    WrittenManifest(max, all, entries, keyOf, OutcomeOf(tries), s.written);
  }

  // ---------------------------------------------------------------------------
  // Every interleaving
  // ---------------------------------------------------------------------------

  /** The hands take turns in any order whatever. */
  function Interleaved(s: PoolState, schedule: seq<nat>, dirty: seq<Expected>, tries: Tries): PoolState
    decreases |schedule|
  {
    if schedule == [] then s
    else Turn(Interleaved(s, schedule[..|schedule| - 1], dirty, tries), schedule[|schedule| - 1], dirty, tries)
  }

  lemma {:induction false} InterleavingKeepsInv(hands: nat, schedule: seq<nat>, dirty: seq<Expected>, tries: Tries)
    ensures Inv(Interleaved(Start(hands), schedule, dirty, tries), dirty, tries)
    ensures |Interleaved(Start(hands), schedule, dirty, tries).hands| == hands
    decreases |schedule|
  {
    if schedule == [] {
      StartOk(hands, dirty, tries);
    } else {
      var init := schedule[..|schedule| - 1];
      InterleavingKeepsInv(hands, init, dirty, tries);
      TurnKeepsInv(Interleaved(Start(hands), init, dirty, tries), schedule[|schedule| - 1], dirty, tries);
    }
  }

  /**
   * Over every sequence of turns after which all hands have finished: what was written and counted
   * is what the sequential run writes and counts, and each target was settled exactly once.
   */
  lemma EveryInterleavingIsSequential(hands: nat, schedule: seq<nat>, dirty: seq<Expected>, tries: Tries)
    requires hands > 0
    requires forall w | 0 <= w < |Interleaved(Start(hands), schedule, dirty, tries).hands| ::
               Interleaved(Start(hands), schedule, dirty, tries).hands[w].Finished?
    ensures var s := Interleaved(Start(hands), schedule, dirty, tries);
            && multiset(s.written) == multiset(WrittenBy(dirty, OutcomeOf(tries)))
            && s.judgeFailed == |Filter(OutFor(tries, true), dirty)|
            && s.parseFailed == |Filter(OutFor(tries, false), dirty)|
            && multiset(s.settled) == multiset(Positions(|dirty|))
  {
    InterleavingKeepsInv(hands, schedule, dirty, tries);
    EachSettledOnce(Interleaved(Start(hands), schedule, dirty, tries), dirty, tries);
    DrainedIsSequential(Interleaved(Start(hands), schedule, dirty, tries), dirty, tries);
  }

  // ---------------------------------------------------------------------------
  // The run
  // ---------------------------------------------------------------------------

  function Preferred(schedule: seq<nat>, k: nat): nat {
    if k < |schedule| then schedule[k] else 0
  }

  class Pool {
    const dirty: seq<Expected>
    const tries: Tries
    var next: nat
    var hands: seq<Hand>
    var failures: seq<Failure>
    var written: seq<Entry>
    var judgeFailed: nat
    var parseFailed: nat
    ghost var settled: seq<nat>

    ghost function View(): PoolState
      reads this
    {
      PoolState(next, hands, failures, written, judgeFailed, parseFailed, settled)
    }

    constructor (targets: seq<Expected>, attempts: Tries, concurrency: nat)
      ensures dirty == targets && tries == attempts && hands != []
      ensures View() == Start(|hands|) && (|hands| == 1 || |hands| <= concurrency)
    {
      var most := if targets == [] then 1 else |targets|;
      var least := if concurrency < most then concurrency else most;
      var limit: nat := if least < 1 then 1 else least;
      dirty, tries, next, hands := targets, attempts, 0, seq(limit, _ => AtTop);
      failures, written, judgeFailed, parseFailed, settled := [], [], 0, 0, [];
    }

    method TakeTurn(w: nat)
      requires w < |hands|
      modifies this
      ensures View() == Turn(old(View()), w, dirty, tries)
    {
      match hands[w]
      case Finished =>
      case AtTop =>
        hands := hands[w := if next < |dirty| then Trying(next, 1) else Finished];
        next := next + 1;
      case Writing(at, e) =>
        written, settled, hands := written + [e], settled + [at], hands[w := AtTop];
      case Trying(at, attempt) =>
        if at < |dirty| {
          GenerateAndJudge(w, at, attempt);
        }
    }

    method GenerateAndJudge(w: nat, at: nat, attempt: nat)
      requires w < |hands| && at < |dirty| && hands[w] == Trying(at, attempt)
      modifies this
      ensures View() == Turn(old(View()), w, dirty, tries)
    {
      var key := dirty[at].target.deriveKey;
      match tries(dirty[at], attempt)
      case Accept(draft) =>
        hands := hands[w := Writing(at, Attested(dirty[at], draft))];
      case Reject(stage) =>
        failures := failures + [Failure(key, attempt, stage)];
        if attempt < MAX_ATTEMPTS {
          hands := hands[w := Trying(at, attempt + 1)];
          return;
        }
        var last := FindLastStage(key);
        hands, settled := hands[w := AtTop], settled + [at];
        if last == JudgeStage {
          judgeFailed := judgeFailed + 1;
        } else {
          parseFailed := parseFailed + 1;
        }
    }

    method FindLastStage(deriveKey: string) returns (stage: Stage)
      ensures stage == LastStage(failures, deriveKey)
    {
      var i: nat := |failures|;
      assert failures[..i] == failures;
      while i > 0
        invariant i <= |failures|
        invariant LastStage(failures, deriveKey) == LastStage(failures[..i], deriveKey)
      {
        i := i - 1;
        assert failures[..i + 1][..i] == failures[..i];
        if failures[i].deriveKey == deriveKey {
          return failures[i].stage;
        }
      }
      return GenerateStage;
    }

    /** Drains the pool in any order of turns: the schedule names the hand that runs next, an arbitrary one after its end. */
    method Drain(schedule: seq<nat>)
      requires Inv(View(), dirty, tries) && hands != []
      modifies this
      ensures Drained(View(), dirty, tries)
    {
      var k: nat := 0;
      var w: nat := Unfinished(Preferred(schedule, k));
      while w < |hands|
        invariant Inv(View(), dirty, tries) && hands != []
        invariant w < |hands| ==> !hands[w].Finished?
        invariant w >= |hands| ==> forall h | 0 <= h < |hands| :: hands[h].Finished?
        decreases TurnsLeft(View(), dirty)
      {
        RunTurn(w);
        k := k + 1;
        w := Unfinished(Preferred(schedule, k));
      }
    }

    method RunTurn(w: nat)
      requires Inv(View(), dirty, tries) && w < |hands| && !hands[w].Finished?
      modifies this
      ensures Inv(View(), dirty, tries) && hands != []
      ensures TurnsLeft(View(), dirty) < TurnsLeft(old(View()), dirty)
    {
      TurnProgresses(View(), w, dirty, tries);
      TurnKeepsInv(View(), w, dirty, tries);
      assert |Turn(View(), w, dirty, tries).hands| == |hands|;
      TakeTurn(w);
    }

    /** The preferred hand if it still has work, otherwise the first that has, if any. */
    method Unfinished(preferred: nat) returns (w: nat)
      ensures w < |hands| ==> !hands[w].Finished?
      ensures w >= |hands| ==> forall k | 0 <= k < |hands| :: hands[k].Finished?
    {
      if preferred < |hands| && !hands[preferred].Finished? {
        return preferred;
      }
      w := 0;
      while w < |hands| && hands[w].Finished?
        invariant w <= |hands|
        invariant forall j | 0 <= j < w :: hands[j].Finished?
      {
        w := w + 1;
      }
    }
  }

  /** The entries a run writes and the counts it reports, whatever the schedule and the concurrency. */
  method DrainTargets(dirty: seq<Expected>, tries: Tries, concurrency: nat, schedule: seq<nat>)
    returns (written: seq<Entry>, judgeFailed: nat, parseFailed: nat)
    ensures multiset(written) == multiset(WrittenBy(dirty, OutcomeOf(tries)))
    ensures judgeFailed == |Filter(OutFor(tries, true), dirty)|
    ensures parseFailed == |Filter(OutFor(tries, false), dirty)|
  {
    var pool := new Pool(dirty, tries, concurrency);
    StartOk(|pool.hands|, dirty, tries);
    pool.Drain(schedule);
    DrainedIsSequential(pool.View(), dirty, tries);
    return pool.written, pool.judgeFailed, pool.parseFailed;
  }
}
