/**
 * The offset store and one pass of the ingestion seam over a fetched batch, on the real
 * ledger object; and its tie to the protocol steps of IngestRuns.
 */
module Ingest {
  import opened Orders
  import opened LedgerRows
  import opened LedgerRuns
  import opened MessageLedger
  import Protocol = IngestRuns

  datatype CursorFile = Missing | Unparseable | Saved(committed: int)

  datatype Written = Written | OffsetRegress(from: int, to: int)

  class OffsetStore {
    var file: CursorFile
    var cache: Option<int>

    /** What a read answers: the cache, else the file, else 0. */
    function Committed(): int
      reads this
    {
      if cache.Some? then cache.value else if file.Saved? then file.committed else 0
    }

    constructor (onDisk: CursorFile)
      ensures file == onDisk && cache == None
    {
      file, cache := onDisk, None;
    }

    /** A missing or unparseable file answers 0 and stays uncached. */
    method Read() returns (committed: int)
      modifies `cache
      ensures committed == old(Committed()) == Committed()
      ensures cache == if old(cache).Some? || file.Saved? then Some(committed) else None
    {
      if cache.Some? {
        return cache.value;
      }
      match file {
        case Missing => return 0;
        case Unparseable => return 0;
        case Saved(n) =>
          cache := Some(n);
          return n;
      }
    }

    /** The cursor is written only forward; a regress is refused and changes nothing durable. */
    method Write(next: int) returns (r: Written)
      modifies this
      ensures r == (if next < old(Committed()) then OffsetRegress(old(Committed()), next) else Written)
      ensures r == Written ==> file == Saved(next) && Committed() == next
      ensures r != Written ==> file == old(file) && Committed() == old(Committed())
    {
      var current := Read();
      if next < current {
        return OffsetRegress(current, next);
      }
      cache := Some(next);
      file := Saved(next);
      r := Written;
    }
  }

  datatype Handling = Turn(turnId: string) | NoTurn | Throws

  datatype Verdict = HandledNew | Duplicate

  datatype Ingested = Ingested(updateId: int, verdict: Verdict, turnId: Option<string>)

  /** The seam's state while it walks a batch. */
  datatype Seam = Seam(log: seq<Row>, committed: int, out: seq<Ingested>, threw: bool)

  predicate IsNew(log: seq<Row>, m: InboundMsg) {
    m.updateId !in InboundIds(log)
  }

  function ClaimOf(now: int, m: InboundMsg): Row {
    Inbound(now, m)
  }

  /** One update: claim, handle if new, link, then move the offset; a throw stops before the offset. */
  function IngestOne(s: Seam, m: InboundMsg, handler: InboundMsg -> Handling, now: int): Seam {
    if s.threw then s
    else
      var claimed := s.log + [ClaimOf(now, m)];
      var handling := if IsNew(s.log, m) then handler(m) else NoTurn;
      if handling.Throws? then s.(log := claimed, threw := true)
      else
        var log := if handling.Turn? then claimed + [Link(now, m.updateId, handling.turnId)] else claimed;
        Seam(log,
             if m.updateId > s.committed then m.updateId else s.committed,
             s.out + [Ingested(m.updateId, if IsNew(s.log, m) then HandledNew else Duplicate,
                               if handling.Turn? then Some(handling.turnId) else None)],
             false)
  }

  function IngestAll(s: Seam, ms: seq<InboundMsg>, handler: InboundMsg -> Handling, now: int): Seam
    decreases |ms|
  {
    if ms == [] then s else IngestOne(IngestAll(s, ms[..|ms| - 1], handler, now), ms[|ms| - 1], handler, now)
  }

  lemma {:induction false} ThrewStays(s: Seam, ms: seq<InboundMsg>, handler: InboundMsg -> Handling, now: int, n: nat)
    requires n <= |ms| && IngestAll(s, ms[..n], handler, now).threw
    ensures IngestAll(s, ms, handler, now) == IngestAll(s, ms[..n], handler, now)
    decreases |ms| - n
  {
    if n < |ms| {
      assert ms[..n + 1][..n] == ms[..n];
      ThrewStays(s, ms, handler, now, n + 1);
    } else {
      assert ms[..n] == ms;
    }
  }

  lemma IngestNext(s: Seam, ms: seq<InboundMsg>, handler: InboundMsg -> Handling, now: int, i: nat)
    requires i < |ms|
    ensures IngestAll(s, ms[..i + 1], handler, now) == IngestOne(IngestAll(s, ms[..i], handler, now), ms[i], handler, now)
  {
    assert ms[..i + 1][..i] == ms[..i];
  }

  /** The body of the seam's loop. */
  method IngestMessage(ledger: Opened, offsets: OffsetStore, handler: InboundMsg -> Handling, now: int, m: InboundMsg)
    returns (out: Option<Ingested>)
    requires ledger.Valid()
    modifies ledger, ledger.fold, offsets
    ensures ledger.Valid() && ledger.fold == old(ledger.fold)
    ensures var end := IngestOne(Seam(old(ledger.log), old(offsets.Committed()), [], false), m, handler, now);
            && ledger.log == end.log && offsets.Committed() == end.committed
            && out == (if end.threw then None else Some(end.out[0]))
  {
    var isNew := ledger.RecordInbound(now, m);
    var turnId := None;
    if isNew {
      var handling := handler(m);
      if handling.Throws? {
        return None;
      }
      if handling.Turn? {
        ledger.LinkTurn(now, m.updateId, handling.turnId);
        turnId := Some(handling.turnId);
      }
    }
    var committed := offsets.Read();
    if m.updateId > committed {
      var w := offsets.Write(m.updateId);
    }
    out := Some(Ingested(m.updateId, if isNew then HandledNew else Duplicate, turnId));
  }

  lemma OneFromAnywhere(s: Seam, m: InboundMsg, handler: InboundMsg -> Handling, now: int)
    requires !s.threw
    ensures var one := IngestOne(s.(out := []), m, handler, now);
            IngestOne(s, m, handler, now) == one.(out := s.out + one.out)
  {
  }

  method IngestUpdates(ledger: Opened, offsets: OffsetStore, handler: InboundMsg -> Handling, now: int,
                       updates: seq<InboundMsg>)
    returns (out: seq<Ingested>, threw: bool)
    requires ledger.Valid()
    modifies ledger, ledger.fold, offsets
    ensures ledger.Valid() && ledger.fold == old(ledger.fold)
    ensures Seam(ledger.log, offsets.Committed(), out, threw) ==
            IngestAll(Seam(old(ledger.log), old(offsets.Committed()), [], false),
                      SortBy(Protocol.IdLeq, updates), handler, now)
  {
    var ordered := SortBy(Protocol.IdLeq, updates);
    out, threw := [], false;
    ghost var start := Seam(ledger.log, offsets.Committed(), [], false);
    ghost var at := start;
    for i := 0 to |ordered|
      invariant ledger.Valid() && ledger.fold == old(ledger.fold)
      invariant at == IngestAll(start, ordered[..i], handler, now)
      invariant at == Seam(ledger.log, offsets.Committed(), out, threw) && !threw
    {
      IngestNext(start, ordered, handler, now, i);
      OneFromAnywhere(at, ordered[i], handler, now);
      at := IngestOne(at, ordered[i], handler, now);
      var r := IngestMessage(ledger, offsets, handler, now, ordered[i]);
      if r.None? {
        threw := true;
        ThrewStays(start, ordered, handler, now, i + 1);
        return;
      }
      out := out + [r.value];
    }
    assert ordered[..|ordered|] == ordered;
  }

  // ---------------------------------------------------------------------------
  // The pass is the protocol run without interruption
  // ---------------------------------------------------------------------------

  /** The protocol steps one update takes when nothing fails. */
  function StepsFor(log: seq<Row>, m: InboundMsg, handling: Handling, now: int): seq<Protocol.Event>
    requires !handling.Throws?
  {
    if !IsNew(log, m) then [Protocol.Claimed(now), Protocol.Committed]
    else if handling.Turn? then
      [Protocol.Claimed(now), Protocol.Handled(Some(handling.turnId)), Protocol.Linked(now), Protocol.Committed]
    else [Protocol.Claimed(now), Protocol.Handled(None), Protocol.Committed]
  }

  /** The world of a process about to claim the head of its batch, with its dedupe set in step with the log. */
  predicate AboutToClaim(w: Protocol.World, m: InboundMsg) {
    && w.process.Up? && w.process.stage.Claim? && w.process.stage.todo != [] && w.process.stage.todo[0] == m
    && !w.torn
    && w.process.seen == InboundIds(w.rows)
  }

  /** The world once the head of the batch went the way IngestOne says. */
  function After(w: Protocol.World, m: InboundMsg, handling: Handling, now: int): Protocol.World
    requires AboutToClaim(w, m) && !handling.Throws?
  {
    var s := IngestOne(Seam(w.rows, w.process.committed, [], false), m, (x: InboundMsg) => handling, now);
    w.(rows := s.log,
       cursorFile := if m.updateId > w.process.committed then m.updateId else w.cursorFile,
       handled := w.handled + (if s.out[0].verdict == HandledNew then [m.updateId] else []),
       process := Protocol.Up(w.process.seen + {m.updateId}, s.committed, Protocol.Advance(w.process.stage.todo)))
  }

  lemma AfterStaysInStep(w: Protocol.World, m: InboundMsg, handling: Handling, now: int)
    requires AboutToClaim(w, m) && !handling.Throws?
    ensures After(w, m, handling, now).process.seen == InboundIds(After(w, m, handling, now).rows)
  {
    var claimed := w.rows + [ClaimOf(now, m)];
    InboundIdsSnoc(w.rows, ClaimOf(now, m));
    if handling.Turn? {
      InboundIdsSnoc(claimed, Link(now, m.updateId, handling.turnId));
    }
  }

  lemma DuplicateSteps(w: Protocol.World, m: InboundMsg, handling: Handling, now: int)
    requires AboutToClaim(w, m) && !handling.Throws? && !IsNew(w.rows, m)
    ensures Protocol.Runs(w, StepsFor(w.rows, m, handling, now), After(w, m, handling, now))
  {
    var t := After(w, m, handling, now);
    var claim, done := Protocol.Claimed(now), Protocol.Committed;
    var w1 := Protocol.Step(w, claim);
    assert Protocol.Step(w1, done) == t;
    Protocol.RunsCons(w1, done, [], t);
    Protocol.RunsCons(w, claim, [done], t);
    assert [claim] + [done] == StepsFor(w.rows, m, handling, now);
  }

  lemma UnlinkedSteps(w: Protocol.World, m: InboundMsg, now: int)
    requires AboutToClaim(w, m) && IsNew(w.rows, m)
    ensures Protocol.Runs(w, StepsFor(w.rows, m, NoTurn, now), After(w, m, NoTurn, now))
  {
    var t := After(w, m, NoTurn, now);
    var claim, handled, done := Protocol.Claimed(now), Protocol.Handled(None), Protocol.Committed;
    var w1 := Protocol.Step(w, claim);
    var w2 := Protocol.Step(w1, handled);
    assert Protocol.Step(w2, done) == t;
    Protocol.RunsThree(w, claim, w1, handled, w2, done, t);
  }

  lemma LinkedSteps(w: Protocol.World, m: InboundMsg, turnId: string, now: int)
    requires AboutToClaim(w, m) && IsNew(w.rows, m)
    ensures Protocol.Runs(w, StepsFor(w.rows, m, Turn(turnId), now), After(w, m, Turn(turnId), now))
  {
    var t := After(w, m, Turn(turnId), now);
    var claim, handled := Protocol.Claimed(now), Protocol.Handled(Some(turnId));
    var linked, done := Protocol.Linked(now), Protocol.Committed;
    var w1 := Protocol.Step(w, claim);
    var w2 := Protocol.Step(w1, handled);
    var w3 := Protocol.Step(w2, linked);
    assert Protocol.Step(w3, done) == t;
    Protocol.RunsThree(w1, handled, w2, linked, w3, done, t);
    Protocol.RunsCons(w, claim, [handled, linked, done], t);
    assert [claim] + [handled, linked, done] == StepsFor(w.rows, m, Turn(turnId), now);
  }

  /**
   * IngestOne is what the protocol's own steps do to the log, the offset and the handled updates:
   * the handler runs exactly when the update is new to the log, and the offset moves last.
   */
  lemma IngestOneIsProtocolSteps(w: Protocol.World, m: InboundMsg, handling: Handling, now: int)
    requires AboutToClaim(w, m) && !handling.Throws?
    ensures Protocol.Runs(w, StepsFor(w.rows, m, handling, now), After(w, m, handling, now))
  {
    if !IsNew(w.rows, m) {
      DuplicateSteps(w, m, handling, now);
    } else if handling.NoTurn? {
      UnlinkedSteps(w, m, now);
    } else {
      LinkedSteps(w, m, handling.turnId, now);
    }
  }
}
