/** The swap loop: what one swap does, what every run of swaps keeps, and when a run ends. */
module SwapLoop {
  import opened Orders
  import opened Candidates
  import opened Quota
  import opened PacketLaws
  import opened Coherence

  // ---------------------------------------------------------------------------
  // One swap
  // ---------------------------------------------------------------------------

  predicate IsSelected(p: Packet, id: string) {
    (exists s | s in MembersOf(p.groups) :: s.c.id == id) || (exists s | s in p.procedural :: s.c.id == id)
  }

  /** A runner-up that has not been out and whose id fills no slot. */
  predicate Free(r: Scored, out: seq<Scored>, p: Packet) {
    r !in out && !IsSelected(p, r.c.id)
  }

  function FirstFree(runners: seq<Scored>, out: seq<Scored>, p: Packet): (r: Option<Scored>)
    ensures r.Some? ==> r.value in runners && Free(r.value, out, p)
    ensures r.None? <==> forall s | s in runners :: !Free(s, out, p)
  {
    if runners == [] then None
    else if Free(runners[0], out, p) then Some(runners[0])
    else
      assert forall s :: s in runners <==> s == runners[0] || s in runners[1..];
      FirstFree(runners[1..], out, p)
  }

  /** The packet once the offender has left its slot. */
  function Vacated(p: Packet, i: nat, slot: Scored): Packet
    requires i < |p.groups|
  {
    var g := p.groups[i];
    p.(groups := p.groups[i := g.(members := RemoveSlot(g.members, slot), out := g.out + [slot])])
  }

  function Joined(p: Packet, i: nat, r: Scored): Packet
    requires i < |p.groups|
  {
    var g := p.groups[i];
    p.(groups := p.groups[i := g.(members := g.members + [r])])
  }

  /** The offender leaves, and the best runner-up of its own group that is free takes the slot. */
  function Swapped(p: Packet, i: nat, slot: Scored): Packet
    requires i < |p.groups|
  {
    var v := Vacated(p, i, slot);
    match FirstFree(v.groups[i].runners, v.groups[i].out, v)
    case None => v
    case Some(r) => Joined(v, i, r)
  }

  method FindReplacement(runners: seq<Scored>, out: seq<Scored>, p: Packet) returns (r: Option<Scored>)
    ensures r == FirstFree(runners, out, p)
  {
    for k := 0 to |runners|
      invariant FirstFree(runners, out, p) == FirstFree(runners[k..], out, p)
    {
      if Free(runners[k], out, p) {
        return Some(runners[k]);
      }
      assert runners[k..][1..] == runners[k + 1..];
    }
    r := None;
  }

  method SwapOut(sel: Selection, i: nat, slot: Scored)
    requires sel.Valid() && i < |sel.groups|
    modifies sel.groups
    ensures sel.View() == Swapped(old(sel.View()), i, slot)
  {
    ghost var before := sel.View();
    var g := sel.groups[i];
    g.members := RemoveSlot(g.members, slot);
    g.out := g.out + [slot];
    ghost var v := Vacated(before, i, slot);
    assert sel.View() == v by {
      assert sel.View().groups == v.groups;
    }
    var replacement := FindReplacement(g.runners, g.out, sel.View());
    if replacement.Some? {
      g.members := g.members + [replacement.value];
      assert sel.View().groups == Joined(v, i, replacement.value).groups;
    }
  }

  // ---------------------------------------------------------------------------
  // What a swap keeps
  // ---------------------------------------------------------------------------

  lemma VacatedGroup(g: GroupV, slot: Scored, q: Query, cfg: Config)
    requires GroupSound(g, q, cfg)
    ensures GroupSound(g.(members := RemoveSlot(g.members, slot), out := g.out + [slot]), q, cfg)
  {
    RemovedParts(g.members, slot);
  }

  lemma VacatedSound(p: Packet, i: nat, slot: Scored, q: Query, cfg: Config)
    requires Sound(p.groups, q, cfg) && i < |p.groups|
    ensures Sound(Vacated(p, i, slot).groups, q, cfg)
  {
    var g := p.groups[i];
    var v := Vacated(p, i, slot).groups;
    var pre, post := MembersOf(p.groups[..i]), MembersOf(p.groups[i + 1..]);
    VacatedGroup(g, slot, q, cfg);
    MembersUpdated(p.groups, i, v[i]);
    assert UniqueIds(MembersOf(v)) by {
      RemovedParts(g.members, slot);
      UniqueShrunk(pre, g.members, v[i].members, post);
    }
  }

  /** One member leaves: the group is strictly smaller. */
  lemma VacatedSmaller(members: seq<Scored>, slot: Scored)
    requires slot in members
    ensures |RemoveSlot(members, slot)| < |members|
  {
    RemovedParts(members, slot);
    assert slot in multiset(members);
    assert |multiset(RemoveSlot(members, slot))| == |RemoveSlot(members, slot)| && |multiset(members)| == |members|;
  }

  lemma JoinedSound(p: Packet, i: nat, r: Scored, q: Query, cfg: Config)
    requires Sound(p.groups, q, cfg) && i < |p.groups|
    requires r in p.groups[i].runners && Free(r, p.groups[i].out, p)
    requires |p.groups[i].members| < QuotaOf(p.groups[i].kind, cfg)
    ensures Sound(Joined(p, i, r).groups, q, cfg)
  {
    var g := p.groups[i];
    var pre, post := MembersOf(p.groups[..i]), MembersOf(p.groups[i + 1..]);
    var joined := g.(members := g.members + [r]);
    MembersUpdated(p.groups, i, joined);
    assert UniqueIds(MembersOf(p.groups[i := joined])) by {
      UniqueGrown(pre, g.members, post, r);
    }
  }

  /** Every swap keeps the packet sound, whichever slot leaves and whatever the layers say. */
  lemma SwapKeepsSound(p: Packet, i: nat, slot: Scored, q: Query, cfg: Config)
    requires Sound(p.groups, q, cfg) && i < |p.groups| && slot in p.groups[i].members
    ensures Sound(Swapped(p, i, slot).groups, q, cfg)
  {
    var v := Vacated(p, i, slot);
    VacatedSound(p, i, slot, q, cfg);
    VacatedSmaller(p.groups[i].members, slot);
    match FirstFree(v.groups[i].runners, v.groups[i].out, v)
    case None =>
    case Some(r) => JoinedSound(v, i, r, q, cfg);
  }

  /**
   * What a swap changes: the offender is out of its group for good, and nothing outside its group
   * moves.
   */
  lemma SwapEffect(p: Packet, i: nat, slot: Scored)
    requires i < |p.groups|
    ensures var r := Swapped(p, i, slot); var g := p.groups[i]; var h := r.groups[i];
            && |r.groups| == |p.groups|
            && (forall j | 0 <= j < |p.groups| && j != i :: r.groups[j] == p.groups[j])
            && r.procedural == p.procedural && r.proceduralOut == p.proceduralOut && r.scarcity == p.scarcity
            && h.kind == g.kind && h.min == g.min && h.runners == g.runners && h.out == g.out + [slot]
  {
  }

  /** The slot is taken by the best runner-up that is free, and stays empty only when none is. */
  lemma SlotRefilled(p: Packet, i: nat, slot: Scored)
    requires i < |p.groups|
    ensures var g := p.groups[i]; var h := Swapped(p, i, slot).groups[i]; var v := Vacated(p, i, slot);
            var kept := RemoveSlot(g.members, slot);
            if forall m | m in g.runners :: !Free(m, h.out, v) then h.members == kept
            else exists k: nat :: k < |g.runners| && h.members == kept + [g.runners[k]]
                                  && Free(g.runners[k], h.out, v)
                                  && forall l | 0 <= l < k :: !Free(g.runners[l], h.out, v)
  {
    var v := Vacated(p, i, slot);
    var runners, out := v.groups[i].runners, v.groups[i].out;
    if FirstFree(runners, out, v).Some? {
      FirstFreeIsFirst(runners, out, v);
    }
  }

  lemma {:induction false} FirstFreeIsFirst(runners: seq<Scored>, out: seq<Scored>, p: Packet)
    requires FirstFree(runners, out, p).Some?
    ensures exists k: nat :: k < |runners| && FirstFree(runners, out, p) == Some(runners[k])
                             && forall l | 0 <= l < k :: !Free(runners[l], out, p)
  {
    if Free(runners[0], out, p) {
      assert FirstFree(runners, out, p) == Some(runners[0]);
    } else {
      FirstFreeIsFirst(runners[1..], out, p);
      var k: nat :| k < |runners[1..]| && FirstFree(runners[1..], out, p) == Some(runners[1..][k])
                    && forall l | 0 <= l < k :: !Free(runners[1..][l], out, p);
      assert runners[k + 1] == runners[1..][k];
      forall l | 0 <= l < k + 1 ensures !Free(runners[l], out, p) {
        if l > 0 { assert runners[l] == runners[1..][l - 1]; }
      }
    }
  }

  // ---------------------------------------------------------------------------
  // Runs of swaps
  // ---------------------------------------------------------------------------

  datatype Swap = Swap(group: nat, slot: Scored)

  function Apply(p: Packet, w: Swap): Packet {
    if w.group < |p.groups| then Swapped(p, w.group, w.slot) else p
  }

  function AfterSwaps(p: Packet, swaps: seq<Swap>): Packet
    decreases |swaps|
  {
    if swaps == [] then p else Apply(AfterSwaps(p, swaps[..|swaps| - 1]), swaps[|swaps| - 1])
  }

  /** The swap takes the slot that the first broken layer names out of the group that holds it. */
  ghost predicate Forced(p: Packet, ctx: Context, w: Swap) {
    w.group < |p.groups| && w.slot in p.groups[w.group].members && Violation(p.groups, ctx, w.slot)
  }

  /** Every element is one that may come next after those before it. */
  ghost predicate Chain<T>(next: (seq<T>, T) -> bool, s: seq<T>)
    decreases |s|
  {
    s == [] || (Chain(next, s[..|s| - 1]) && next(s[..|s| - 1], s[|s| - 1]))
  }

  ghost function ForcedNext(p: Packet, ctx: Context): (seq<Swap>, Swap) -> bool {
    (swaps: seq<Swap>, w: Swap) => Forced(AfterSwaps(p, swaps), ctx, w)
  }

  ghost predicate ForcedRun(p: Packet, ctx: Context, swaps: seq<Swap>) {
    Chain(ForcedNext(p, ctx), swaps)
  }

  ghost predicate SoundFor(p: Packet, ctx: Context) {
    Sound(p.groups, ctx.q, ctx.cfg)
  }

  lemma ApplyKeepsSound(p: Packet, ctx: Context, w: Swap)
    requires SoundFor(p, ctx) && Forced(p, ctx, w)
    ensures SoundFor(Apply(p, w), ctx)
  {
    SwapKeepsSound(p, w.group, w.slot, ctx.q, ctx.cfg);
  }

  /** Every reachable packet is sound: ids apart, quotas respected, the keel canon, registers compatible. */
  lemma {:induction false} SwapsKeepSound(p: Packet, ctx: Context, swaps: seq<Swap>)
    requires SoundFor(p, ctx) && ForcedRun(p, ctx, swaps)
    ensures SoundFor(AfterSwaps(p, swaps), ctx)
    decreases |swaps|
  {
    if swaps != [] {
      var init := swaps[..|swaps| - 1];
      SwapsKeepSound(p, ctx, init);
      ApplyKeepsSound(AfterSwaps(p, init), ctx, swaps[|swaps| - 1]);
    }
  }

  ghost predicate Extends(g: GroupV, h: GroupV) {
    g.out <= h.out && h.runners == g.runners && h.kind == g.kind && h.min == g.min
  }

  lemma {:induction false} SwapsExtend(p: Packet, swaps: seq<Swap>, i: nat)
    requires i < |p.groups|
    ensures var r := AfterSwaps(p, swaps);
            && |r.groups| == |p.groups| && r.procedural == p.procedural && r.scarcity == p.scarcity
            && Extends(p.groups[i], r.groups[i])
    decreases |swaps|
  {
    if swaps != [] {
      var init, w := swaps[..|swaps| - 1], swaps[|swaps| - 1];
      SwapsExtend(p, init, i);
      if w.group < |AfterSwaps(p, init).groups| {
        SwapEffect(AfterSwaps(p, init), w.group, w.slot);
      }
    }
  }

  /** An offender never again fills a slot of the group it left, however the run goes on. */
  lemma NeverBackInItsGroup(p: Packet, ctx: Context, w: Swap, more: seq<Swap>)
    requires SoundFor(p, ctx) && Forced(p, ctx, w) && ForcedRun(Apply(p, w), ctx, more)
    ensures var r := AfterSwaps(Apply(p, w), more);
            |r.groups| == |p.groups| && w.slot in r.groups[w.group].out && w.slot !in r.groups[w.group].members
  {
    var after, at := Apply(p, w), |p.groups[w.group].out|;
    SwapEffect(p, w.group, w.slot);
    assert after.groups[w.group].out[at] == w.slot;
    SwapsExtend(after, more, w.group);
    var h := AfterSwaps(after, more).groups[w.group];
    assert h.out[at] == w.slot;
    ApplyKeepsSound(p, ctx, w);
    SwapsKeepSound(after, ctx, more);
    assert GroupSound(h, ctx.q, ctx.cfg);
  }

  /** A slot belongs to one group only. */
  lemma OneGroupHolds(groups: seq<GroupV>, i: nat, j: nat, slot: Scored)
    requires UniqueIds(MembersOf(groups)) && i < |groups| && j < |groups|
    requires slot in groups[i].members && slot in groups[j].members
    ensures i == j
  {
    if i < j {
      Held(groups, i, j, slot);
    } else if j < i {
      Held(groups, j, i, slot);
    }
  }

  lemma Held(groups: seq<GroupV>, i: nat, j: nat, slot: Scored)
    requires i < j < |groups| && slot in groups[i].members && slot in groups[j].members
    ensures !UniqueIds(MembersOf(groups))
  {
    MembersSplit(groups, j);
    MembersSplit(groups[..j], i);
    var before, rest := MembersOf(groups[..j]), MembersOf(groups[j + 1..]);
    assert groups[..j][i] == groups[i];
    assert slot in before;
    assert MembersOf(groups) == before + groups[j].members + rest;
    if UniqueIds(MembersOf(groups)) {
      UniqueParts(before + groups[j].members, rest);
      UniqueParts(before, groups[j].members);
      assert false;
    }
  }

  lemma ForcedOne(p: Packet, ctx: Context, w: Swap, x: Swap)
    requires SoundFor(p, ctx) && Forced(p, ctx, w) && Forced(p, ctx, x)
    ensures w == x
  {
    ViolationIsOne(p.groups, ctx, w.slot, x.slot);
    OneGroupHolds(p.groups, w.group, x.group, w.slot);
  }

  lemma AppendSwap(p: Packet, ctx: Context, swaps: seq<Swap>, w: Swap)
    requires ForcedRun(p, ctx, swaps) && Forced(AfterSwaps(p, swaps), ctx, w)
    ensures ForcedRun(p, ctx, swaps + [w])
    ensures AfterSwaps(p, swaps + [w]) == Apply(AfterSwaps(p, swaps), w)
  {
    assert (swaps + [w])[..|swaps|] == swaps;
  }

  lemma NextIsOne(p: Packet, ctx: Context, init: seq<Swap>, w: Swap, x: Swap)
    requires SoundFor(p, ctx) && ForcedRun(p, ctx, init)
    requires ForcedNext(p, ctx)(init, w) && ForcedNext(p, ctx)(init, x)
    ensures w == x
  {
    SwapsKeepSound(p, ctx, init);
    ForcedOne(AfterSwaps(p, init), ctx, w, x);
  }

  ghost predicate NoChoice<T(!new)>(next: (seq<T>, T) -> bool) {
    forall init, w, x | Chain(next, init) && next(init, w) && next(init, x) :: w == x
  }

  lemma {:induction false} NoChoiceNoFork<T(!new)>(next: (seq<T>, T) -> bool, a: seq<T>, b: seq<T>)
    requires NoChoice(next) && Chain(next, a) && Chain(next, b) && |a| == |b|
    ensures a == b
    decreases |a|
  {
    if a != [] {
      var initA, initB, w, x := a[..|a| - 1], b[..|b| - 1], a[|a| - 1], b[|b| - 1];
      NoChoiceNoFork(next, initA, initB);
      assert next(initA, w) && next(initA, x);
      assert a == initA + [w] && b == initB + [x];
    }
  }

  /** The run is determined by where it starts: two forced runs of one length are the same run. */
  lemma RunsAreDetermined(p: Packet, ctx: Context, a: seq<Swap>, b: seq<Swap>)
    requires SoundFor(p, ctx) && ForcedRun(p, ctx, a) && ForcedRun(p, ctx, b) && |a| == |b|
    ensures a == b
  {
    var next := ForcedNext(p, ctx);
    forall init, w, x | Chain(next, init) && next(init, w) && next(init, x) ensures w == x {
      NextIsOne(p, ctx, init, w, x);
    }
    NoChoiceNoFork(next, a, b);
  }

  // ---------------------------------------------------------------------------
  // The loop
  // ---------------------------------------------------------------------------

  method GroupOfScored(sel: Selection, slot: Scored) returns (i: nat)
    requires slot in MembersOf(sel.View().groups)
    ensures i < |sel.groups| && slot in sel.groups[i].members
  {
    i := 0;
    ghost var views := sel.View().groups;
    HeldSomewhere(views, slot);
    while slot !in sel.groups[i].members
      invariant i < |sel.groups|
      invariant exists k :: i <= k < |sel.groups| && slot in sel.groups[k].members
      decreases |sel.groups| - i
    {
      i := i + 1;
    }
  }

  lemma {:induction false} HeldSomewhere(groups: seq<GroupV>, slot: Scored)
    requires slot in MembersOf(groups)
    ensures exists k :: 0 <= k < |groups| && slot in groups[k].members
    decreases |groups|
  {
    if slot !in groups[|groups| - 1].members {
      HeldSomewhere(groups[..|groups| - 1], slot);
    }
  }

  /**
   * Degraded is exactly a broken layer in the packet that ships; the loop stops at the first
   * coherent packet or when its rounds are spent; and the packet stays sound throughout.
   */
  method RunCoherence(sel: Selection, ctx: Context) returns (degraded: bool, rounds: nat, ghost swaps: seq<Swap>)
    requires sel.Valid() && SoundFor(sel.View(), ctx)
    modifies sel.groups
    ensures RunSoFar(old(sel.View()), ctx, swaps, sel.View())
    ensures degraded <==> !Coherent(sel.View().groups, ctx)
    ensures rounds == |swaps| <= ctx.cfg.coherence.maxSwapRounds
    ensures degraded ==> rounds == ctx.cfg.coherence.maxSwapRounds
  {
    rounds, swaps := 0, [];
    ghost var start := sel.View();
    while rounds < ctx.cfg.coherence.maxSwapRounds
      invariant rounds == |swaps| <= ctx.cfg.coherence.maxSwapRounds
      invariant RunSoFar(start, ctx, swaps, sel.View())
    {
      var offender := FirstViolation(sel.View().groups, ctx);
      if offender.None? {
        return false, rounds, swaps;
      }
      swaps := SwapOffender(sel, ctx, offender.value, start, swaps);
      rounds := rounds + 1;
    }
    var standing := FirstViolation(sel.View().groups, ctx);
    degraded := standing.Some?;
  }

  method SwapOffender(sel: Selection, ctx: Context, slot: Scored, ghost start: Packet, ghost swaps: seq<Swap>)
    returns (ghost after: seq<Swap>)
    requires sel.Valid() && RunSoFar(start, ctx, swaps, sel.View()) && Violation(sel.View().groups, ctx, slot)
    modifies sel.groups
    ensures RunSoFar(start, ctx, after, sel.View()) && |after| == |swaps| + 1
  {
    ghost var p := sel.View();
    var i := GroupOfViolation(sel, ctx, slot);
    NextRound(start, ctx, swaps, p, i, slot);
    SwapOut(sel, i, slot);
    after := swaps + [Swap(i, slot)];
  }

  method GroupOfViolation(sel: Selection, ctx: Context, slot: Scored) returns (i: nat)
    requires Violation(sel.View().groups, ctx, slot)
    ensures i < |sel.groups| && slot in sel.groups[i].members
  {
    ViolationIsSelected(sel.View().groups, ctx, slot);
    i := GroupOfScored(sel, slot);
  }

  /** A forced run leads here, and the packet is sound. */
  ghost predicate RunSoFar(start: Packet, ctx: Context, swaps: seq<Swap>, now: Packet) {
    ForcedRun(start, ctx, swaps) && now == AfterSwaps(start, swaps) && SoundFor(now, ctx)
  }

  lemma NextRound(start: Packet, ctx: Context, swaps: seq<Swap>, now: Packet, i: nat, slot: Scored)
    requires RunSoFar(start, ctx, swaps, now) && Violation(now.groups, ctx, slot)
    requires i < |now.groups| && slot in now.groups[i].members
    ensures RunSoFar(start, ctx, swaps + [Swap(i, slot)], Swapped(now, i, slot))
  {
    var w := Swap(i, slot);
    assert Forced(now, ctx, w);
    AppendSwap(start, ctx, swaps, w);
    ApplyKeepsSound(now, ctx, w);
  }

  // ---------------------------------------------------------------------------
  // Where the promises stop
  // ---------------------------------------------------------------------------

  lemma {:induction false} SelectedByGroup(groups: seq<GroupV>, s: Scored)
    ensures s in MembersOf(groups) <==> exists k :: 0 <= k < |groups| && s in groups[k].members
    decreases |groups|
  {
    if groups != [] {
      var init, g := groups[..|groups| - 1], groups[|groups| - 1];
      SelectedByGroup(init, s);
      if s in MembersOf(init) {
        var k :| 0 <= k < |init| && s in init[k].members;
        assert s in groups[k].members;
      }
    }
  }

  ghost predicate SomeExileSelected(p: Packet) {
    exists j, k, s :: 0 <= j < |p.groups| && 0 <= k < |p.groups| && s in p.groups[j].out && s in p.groups[k].members
  }

  ghost predicate ExiledElsewhere(p: Packet, i: nat, s: Scored) {
    exists j :: 0 <= j < |p.groups| && j != i && s in p.groups[j].out
  }

  lemma SelectedExileIsTheRunner(p: Packet, i: nat, slot: Scored)
    requires i < |p.groups| && !SomeExileSelected(p)
    requires UniqueIds(MembersOf(p.groups)) && slot in p.groups[i].members
    requires SomeExileSelected(Swapped(p, i, slot))
    ensures var v := Vacated(p, i, slot); var r := FirstFree(v.groups[i].runners, v.groups[i].out, v);
            r.Some? && ExiledElsewhere(p, i, r.value)
  {
    var v, w := Vacated(p, i, slot), Swapped(p, i, slot);
    var r := FirstFree(v.groups[i].runners, v.groups[i].out, v);
    assert forall m :: m in v.groups[i].members <==> m in p.groups[i].members && m != slot by {
      RemovedParts(p.groups[i].members, slot);
    }
    var j, k, s :| 0 <= j < |w.groups| && 0 <= k < |w.groups| && s in w.groups[j].out && s in w.groups[k].members;
    if s in p.groups[k].members {
      assert s !in p.groups[j].out;
      assert s == slot && k != i;
      OneGroupHolds(p.groups, i, k, slot);
      assert false;
    }
    assert k == i && r == Some(s) && j != i;
  }

  /**
   * The promise that a swapped-out candidate never returns within the assembly holds of a swap
   * exactly when the runner-up it takes is not the exile of another group: the code only looks at
   * the list of the group it refills.
   */
  lemma ExileReturnsIffRunnerElsewhere(p: Packet, i: nat, slot: Scored)
    requires i < |p.groups| && !SomeExileSelected(p)
    requires UniqueIds(MembersOf(p.groups)) && slot in p.groups[i].members
    ensures var v := Vacated(p, i, slot); var r := FirstFree(v.groups[i].runners, v.groups[i].out, v);
            SomeExileSelected(Swapped(p, i, slot)) <==> r.Some? && ExiledElsewhere(p, i, r.value)
  {
    var v, w := Vacated(p, i, slot), Swapped(p, i, slot);
    var r := FirstFree(v.groups[i].runners, v.groups[i].out, v);
    if SomeExileSelected(w) {
      SelectedExileIsTheRunner(p, i, slot);
    }
    if r.Some? && ExiledElsewhere(p, i, r.value) {
      var j :| 0 <= j < |p.groups| && j != i && r.value in p.groups[j].out;
      assert r.value in w.groups[j].out && r.value in w.groups[i].members;
    }
  }

  ghost predicate Scarce(groups: seq<GroupV>) {
    exists k :: 0 <= k < |groups| && BelowFloor(groups[k])
  }

  /**
   * The scarcity flag is the fill's: it still tells the truth after a swap exactly unless the swap
   * drops a slot from a group that stood at its floor in a packet not yet scarce.
   */
  lemma ScarcityFlagAfterSwap(p: Packet, i: nat, slot: Scored)
    requires i < |p.groups| && slot in p.groups[i].members && UniqueIds(p.groups[i].members)
    requires p.scarcity <==> Scarce(p.groups)
    ensures var v := Vacated(p, i, slot); var w := Swapped(p, i, slot); var g := p.groups[i];
            (w.scarcity <==> Scarce(w.groups)) <==>
            (p.scarcity || |g.members| > g.min || exists r | r in g.runners :: Free(r, g.out + [slot], v))
  {
    var g, w := p.groups[i], Swapped(p, i, slot);
    SwapEffect(p, i, slot);
    SlotRefilled(p, i, slot);
    OneFewer(g.members, slot);
    if p.scarcity {
      var k :| 0 <= k < |p.groups| && BelowFloor(p.groups[k]);
      assert BelowFloor(w.groups[k]);
    } else {
      assert forall k | 0 <= k < |p.groups| && k != i :: !BelowFloor(w.groups[k]);
      assert Scarce(w.groups) <==> BelowFloor(w.groups[i]);
    }
  }

  lemma OneFewer(members: seq<Scored>, slot: Scored)
    requires slot in members && UniqueIds(members)
    ensures |RemoveSlot(members, slot)| == |members| - 1
  {
    RemovedParts(members, slot);
    assert slot in multiset(members);
    assert multiset(members)[slot] == 1;
    assert multiset(RemoveSlot(members, slot)) == multiset(members) - multiset{slot};
    assert |multiset(RemoveSlot(members, slot))| == |RemoveSlot(members, slot)| && |multiset(members)| == |members|;
  }

  ghost predicate ShareAnId(p: Packet) {
    exists x, y :: x in MembersOf(p.groups) && y in p.procedural && x.c.id == y.c.id
  }

  /** A swap never brings in an id the procedural channel already shows. */
  lemma SwapSharesNoNewId(p: Packet, i: nat, slot: Scored)
    requires i < |p.groups| && !ShareAnId(p)
    ensures !ShareAnId(Swapped(p, i, slot))
  {
    var v, w := Vacated(p, i, slot), Swapped(p, i, slot);
    RemovedParts(p.groups[i].members, slot);
    forall x | x in MembersOf(w.groups) && x !in MembersOf(p.groups) ensures !IsSelected(v, x.c.id) {
      SelectedByGroup(w.groups, x);
      SelectedByGroup(p.groups, x);
    }
    forall x, y | x in MembersOf(w.groups) && y in w.procedural ensures x.c.id != y.c.id {
      if x !in MembersOf(p.groups) {
        assert !IsSelected(v, x.c.id);
      }
    }
  }
}
