/**
 * Credit assignment: how one graded packet moves the weights, the fold that rebuilds them from the
 * log, and the nightly pass that only takes in what is new. Weights are exact reals.
 */
module Credit {
  import opened Orders

  const CREDIT_ETA := 0.02
  const CLAMP_LOW := 0.5
  const CLAMP_HIGH := 2.0
  const NIGHTLY_DECAY := 0.995
  const MOOD_GUARD := 0.5
  const MICRO := 1000000.0

  /** Sadness, fear, anger, shame and disgust among the twelve dimensions. */
  const AVERSIVE_FIRST: nat := 7
  const AFFECT_DIMS: nat := 12

  datatype SlotTier = Disposition | Pattern | Episode | Memory | Procedure

  datatype Slot = Slot(exemplarId: string, tier: SlotTier, contrast: bool)

  datatype Packet = Packet(turnId: string, slots: seq<Slot>, affectSig: seq<real>)

  datatype Sign = Minus | Zero | Plus

  type Weights = map<string, real>

  // ---------------------------------------------------------------------------
  // One update
  // ---------------------------------------------------------------------------

  function SignOf(s: Sign): real {
    match s case Minus => -1.0 case Zero => 0.0 case Plus => 1.0
  }

  /** Only excursions above the baseline count. */
  function AversiveSquares(affect: seq<real>, n: nat): real {
    if n <= AVERSIVE_FIRST then 0.0
    else
      var v := if n - 1 < |affect| then affect[n - 1] else 0.0;
      AversiveSquares(affect, n - 1) + (if v > 0.0 then v * v else 0.0)
  }

  /** Half while the norm of the aversive excursions is above the threshold. */
  function MoodGuardFor(affect: seq<real>): real {
    if AversiveSquares(affect, AFFECT_DIMS) > MOOD_GUARD * MOOD_GUARD then MOOD_GUARD else 1.0
  }

  /** Math.round at six decimals: halves go up. */
  function Round6(x: real): real {
    (x * MICRO + 0.5).Floor as real / MICRO
  }

  function Clamp(w: real): real {
    if w < CLAMP_LOW then CLAMP_LOW else if w > CLAMP_HIGH then CLAMP_HIGH else w
  }

  function ClampWeight(w: real): real {
    Clamp(Round6(w))
  }

  /** The contrast marker wins over the tier: exploration is rewarded, never punished. */
  function ShareFor(slot: Slot, sign: Sign): real {
    if slot.contrast then (if sign == Plus then 1.0 else 0.0)
    else if slot.tier == Disposition then 0.5
    else 1.0
  }

  function Current(w: Weights, id: string): real {
    if id in w then w[id] else 1.0
  }

  /** The learning rate, signed, shared and guarded. */
  function Nudge(sign: Sign, share: real, guard: real): real {
    CREDIT_ETA * SignOf(sign) * share * guard
  }

  function Moved(w: real, slot: Slot, sign: Sign, guard: real): real {
    ClampWeight(w + Nudge(sign, ShareFor(slot, sign), guard))
  }

  /** The slots in turn, absent ids entering at the neutral weight. */
  function Credited(w: Weights, slots: seq<Slot>, sign: Sign, guard: real): Weights
    decreases |slots|
  {
    if slots == [] then w
    else
      var before, slot := Credited(w, slots[..|slots| - 1], sign, guard), slots[|slots| - 1];
      before[slot.exemplarId := Moved(Current(before, slot.exemplarId), slot, sign, guard)]
  }

  function Applied(w: Weights, p: Packet, sign: Sign): Weights {
    Credited(w, p.slots, sign, MoodGuardFor(p.affectSig))
  }

  lemma CreditedNext(w: Weights, slots: seq<Slot>, sign: Sign, guard: real, i: nat)
    requires i < |slots|
    ensures var before, id := Credited(w, slots[..i], sign, guard), slots[i].exemplarId;
            Credited(w, slots[..i + 1], sign, guard) == before[id := Moved(Current(before, id), slots[i], sign, guard)]
  {
    assert slots[..i + 1][..i] == slots[..i];
  }

  method ApplyOutcome(w: Weights, packet: Packet, sign: Sign) returns (out: Weights)
    ensures out == Applied(w, packet, sign)
  {
    out := w;
    var guard := MoodGuardFor(packet.affectSig);
    for i := 0 to |packet.slots|
      invariant out == Credited(w, packet.slots[..i], sign, guard)
    {
      var slot := packet.slots[i];
      CreditedNext(w, packet.slots, sign, guard, i);
      var current := Current(out, slot.exemplarId);
      out := out[slot.exemplarId := Moved(current, slot, sign, guard)];
    }
    assert packet.slots[..|packet.slots|] == packet.slots;
  }

  ghost predicate InRange(w: Weights) {
    forall id | id in w :: CLAMP_LOW <= w[id] <= CLAMP_HIGH
  }

  lemma {:induction false} CreditedInRange(w: Weights, slots: seq<Slot>, sign: Sign, guard: real)
    requires InRange(w)
    ensures InRange(Credited(w, slots, sign, guard))
    decreases |slots|
  {
    if slots != [] { CreditedInRange(w, slots[..|slots| - 1], sign, guard); }
  }

  /** Only the packet's own exemplars move. */
  lemma {:induction false} OthersKeepTheirWeight(w: Weights, slots: seq<Slot>, sign: Sign, guard: real, id: string)
    requires forall s | s in slots :: s.exemplarId != id
    ensures Current(Credited(w, slots, sign, guard), id) == Current(w, id)
    ensures id in Credited(w, slots, sign, guard) <==> id in w
    decreases |slots|
  {
    if slots != [] {
      var init := slots[..|slots| - 1];
      assert slots[|slots| - 1] in slots;
      OthersKeepTheirWeight(w, init, sign, guard, id);
    }
  }

  lemma RoundIsNear(x: real)
    ensures x - 0.5 / MICRO < Round6(x) <= x + 0.5 / MICRO
  {
    var y := x * MICRO + 0.5;
    var r := y.Floor as real;
    assert r <= y < r + 1.0;
    assert Round6(x) * MICRO == r;
  }

  lemma NudgeBounds(sign: Sign, share: real, guard: real)
    requires share == 0.0 || share == 0.5 || share == 1.0
    requires guard == 1.0 || guard == MOOD_GUARD
    ensures -CREDIT_ETA <= Nudge(sign, share, guard) <= CREDIT_ETA
    ensures share == 0.0 || sign == Zero ==> Nudge(sign, share, guard) == 0.0
    ensures sign == Plus ==> Nudge(sign, share, guard) >= 0.0
  {
  }

  /** One grade moves a weight by at most the learning rate, and by at most half a micro-unit when its share is nil. */
  lemma MoveIsSmall(w: real, slot: Slot, sign: Sign, guard: real)
    requires CLAMP_LOW <= w <= CLAMP_HIGH && (guard == 1.0 || guard == MOOD_GUARD)
    ensures var m := Moved(w, slot, sign, guard);
            && CLAMP_LOW <= m <= CLAMP_HIGH
            && w - CREDIT_ETA - 0.5 / MICRO <= m <= w + CREDIT_ETA + 0.5 / MICRO
            && (ShareFor(slot, sign) == 0.0 || sign == Zero ==> w - 0.5 / MICRO <= m <= w + 0.5 / MICRO)
            && (slot.contrast && sign != Plus ==> w - 0.5 / MICRO <= m)
  {
    var nudge := Nudge(sign, ShareFor(slot, sign), guard);
    NudgeBounds(sign, ShareFor(slot, sign), guard);
    RoundIsNear(w + nudge);
  }

  // ---------------------------------------------------------------------------
  // One grade in micro-units
  // ---------------------------------------------------------------------------

  /** The square of how far a dimension is above its baseline. */
  function Rise(affect: seq<real>, d: nat): real {
    if d < |affect| && affect[d] > 0.0 then affect[d] * affect[d] else 0.0
  }

  /** Sadness, fear, anger, shame and disgust together are more than 0.5 above the baseline. */
  predicate Averse(affect: seq<real>) {
    Rise(affect, 7) + Rise(affect, 8) + Rise(affect, 9) + Rise(affect, 10) + Rise(affect, 11) > 0.25
  }

  lemma AversiveNext(affect: seq<real>, n: nat)
    requires n >= AVERSIVE_FIRST
    ensures AversiveSquares(affect, n + 1) == AversiveSquares(affect, n) + Rise(affect, n)
  {
  }

  lemma GuardIsHalfWhenAverse(affect: seq<real>)
    ensures MoodGuardFor(affect) == if Averse(affect) then 0.5 else 1.0
  {
    assert AversiveSquares(affect, 7) == 0.0;
    AversiveNext(affect, 7);
    AversiveNext(affect, 8);
    AversiveNext(affect, 9);
    AversiveNext(affect, 10);
    AversiveNext(affect, 11);
  }

  /** A weight of so many millionths. */
  function Millionths(k: int): real {
    k as real / 1000000.0
  }

  /**
   * How many millionths one grade is worth: twenty thousand, half of it for a disposition, nothing
   * for a contrast slot that was not vindicated; and half of that again in an averse mood.
   */
  function Worth(slot: Slot, sign: Sign, affect: seq<real>): int {
    var calm := if slot.contrast then (if sign == Plus then 20000 else 0)
                else if slot.tier == Disposition then 10000 else 20000;
    if Averse(affect) then calm / 2 else calm
  }

  /** What a grade makes of a weight: up or down by its worth, between a half and two. */
  function GradedMillionths(k: int, slot: Slot, sign: Sign, affect: seq<real>): int {
    var worth := Worth(slot, sign, affect);
    match sign
    case Plus => if k + worth > 2000000 then 2000000 else k + worth
    case Zero => k
    case Minus => if k - worth < 500000 then 500000 else k - worth
  }

  lemma RoundsToItself(k: int)
    ensures Round6(Millionths(k)) == Millionths(k)
  {
    assert Millionths(k) * MICRO == k as real;
    assert (k as real + 0.5).Floor == k;
  }

  lemma NudgeInMillionths(slot: Slot, sign: Sign, affect: seq<real>)
    ensures Nudge(sign, ShareFor(slot, sign), MoodGuardFor(affect)) ==
            match sign
            case Plus => Millionths(Worth(slot, sign, affect))
            case Zero => 0.0
            case Minus => -Millionths(Worth(slot, sign, affect))
  {
    GuardIsHalfWhenAverse(affect);
  }

  lemma MillionthsAdd(a: int, b: int)
    ensures Millionths(a + b) == Millionths(a) + Millionths(b) && Millionths(-a) == -Millionths(a)
    ensures a <= b <==> Millionths(a) <= Millionths(b)
  {
  }

  /** A weight of whole millionths is moved by the worth of the grade exactly: nothing is lost to rounding. */
  lemma OneGradeMoves(k: int, slot: Slot, sign: Sign, affect: seq<real>)
    requires 500000 <= k <= 2000000
    ensures Moved(Millionths(k), slot, sign, MoodGuardFor(affect)) == Millionths(GradedMillionths(k, slot, sign, affect))
  {
    var worth := Worth(slot, sign, affect);
    NudgeInMillionths(slot, sign, affect);
    var next := match sign case Plus => k + worth case Zero => k case Minus => k - worth;
    MillionthsAdd(k, worth);
    MillionthsAdd(k, -worth);
    MillionthsAdd(worth, 0);
    RoundsToItself(next);
    assert Millionths(500000) == CLAMP_LOW && Millionths(2000000) == CLAMP_HIGH;
    MillionthsAdd(next, 500000);
    MillionthsAdd(2000000, next);
  }

  /**
   * A graded packet moves the weight of an exemplar that holds one slot of it by the worth of the
   * grade for that slot; one that had no weight starts from one.
   */
  lemma AppliedMovesByWorth(w: Weights, p: Packet, sign: Sign, i: nat, k: int)
    requires i < |p.slots| && forall j | 0 <= j < |p.slots| && j != i :: p.slots[j].exemplarId != p.slots[i].exemplarId
    requires 500000 <= k <= 2000000
    requires if p.slots[i].exemplarId in w then w[p.slots[i].exemplarId] == Millionths(k) else k == 1000000
    ensures var id := p.slots[i].exemplarId;
            && id in Applied(w, p, sign)
            && Applied(w, p, sign)[id] == Millionths(GradedMillionths(k, p.slots[i], sign, p.affectSig))
  {
    OnlySlotMoves(w, p.slots, sign, MoodGuardFor(p.affectSig), i);
    OneGradeMoves(k, p.slots[i], sign, p.affectSig);
  }

  lemma {:induction false} OnlySlotMoves(w: Weights, slots: seq<Slot>, sign: Sign, guard: real, i: nat)
    requires i < |slots| && forall j | 0 <= j < |slots| && j != i :: slots[j].exemplarId != slots[i].exemplarId
    ensures var id := slots[i].exemplarId;
            id in Credited(w, slots, sign, guard) && Credited(w, slots, sign, guard)[id] == Moved(Current(w, id), slots[i], sign, guard)
    decreases |slots|
  {
    var init := slots[..|slots| - 1];
    if i == |init| {
      assert forall s | s in init :: s.exemplarId != slots[i].exemplarId;
      OthersKeepTheirWeight(w, init, sign, guard, slots[i].exemplarId);
    } else {
      OnlySlotMoves(w, init, sign, guard, i);
    }
  }

  // ---------------------------------------------------------------------------
  // Decay
  // ---------------------------------------------------------------------------

  function Decayed1(v: real): real {
    Clamp(1.0 + (v - 1.0) * NIGHTLY_DECAY)
  }

  function Decayed(w: Weights): Weights {
    map id | id in w :: Decayed1(w[id])
  }

  method DecayWeights(w: Weights) returns (out: Weights)
    ensures out == Decayed(w)
  {
    out := map[];
    var todo := w.Keys;
    while todo != {}
      invariant todo <= w.Keys && out == map id | id in w && id !in todo :: Decayed1(w[id])
      decreases todo
    {
      ghost var some := PickOne(todo);
      assert some in todo;
      var id :| id in todo;
      var next := 1.0 + (w[id] - 1.0) * NIGHTLY_DECAY;
      out := out[id := Clamp(next)];
      todo := todo - {id};
    }
  }

  function Power(b: real, n: nat): real {
    if n == 0 then 1.0 else b * Power(b, n - 1)
  }

  function Nights(v: real, n: nat): real {
    if n == 0 then v else Decayed1(Nights(v, n - 1))
  }

  lemma {:induction false} PowerRange(n: nat)
    ensures 0.0 < Power(NIGHTLY_DECAY, n) <= 1.0
    ensures n > 0 ==> Power(NIGHTLY_DECAY, n) < Power(NIGHTLY_DECAY, n - 1)
  {
    if n > 0 { PowerRange(n - 1); }
  }

  /** The clamp never fires on the way back to neutral: n nights shrink the excursion by 0.995 to the n. */
  lemma {:induction false} NightsOfDecay(v: real, n: nat)
    requires CLAMP_LOW <= v <= CLAMP_HIGH
    ensures Nights(v, n) == 1.0 + (v - 1.0) * Power(0.995, n)
    ensures CLAMP_LOW <= Nights(v, n) <= CLAMP_HIGH
  {
    if n > 0 {
      NightsOfDecay(v, n - 1);
      DecayStaysInRange(Nights(v, n - 1));
      PowerNext(v - 1.0, n);
    }
  }

  lemma PowerNext(x: real, n: nat)
    requires n > 0
    ensures x * Power(NIGHTLY_DECAY, n - 1) * NIGHTLY_DECAY == x * Power(NIGHTLY_DECAY, n)
  {
  }

  lemma DecayStaysInRange(v: real)
    requires CLAMP_LOW <= v <= CLAMP_HIGH
    ensures CLAMP_LOW <= 1.0 + (v - 1.0) * NIGHTLY_DECAY <= CLAMP_HIGH
  {
  }
}
