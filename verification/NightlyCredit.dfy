/**
 * The nightly pass takes in only the grades past its marker; replaying the log from scratch takes
 * in all of them. They agree, night after night, while no packet follows a grade of its turn and no
 * grade is corrected after the night that took it in.
 */
module NightlyCredit {
  import opened Orders
  import opened Credit

  // ---------------------------------------------------------------------------
  // The log
  // ---------------------------------------------------------------------------

  /** A malformed payload is counted and skipped. */
  datatype Row =
    | PacketRow(seqNo: nat, packet: Packet)
    | OutcomeRow(seqNo: nat, turnId: string, sign: Sign)
    | Malformed(seqNo: nat)

  datatype WeightsFile = WeightsFile(lastSeq: nat, decayDay: nat, weights: Weights)

  function EmptyFile(): WeightsFile {
    WeightsFile(0, 0, map[])
  }

  function Max(a: nat, b: nat): nat {
    if a >= b then a else b
  }

  function MaxSeq(log: seq<Row>): nat
    decreases |log|
  {
    if log == [] then 0 else Max(MaxSeq(log[..|log| - 1]), log[|log| - 1].seqNo)
  }

  predicate GradesTurn(row: Row, turnId: string) {
    row.OutcomeRow? && row.turnId == turnId
  }

  function NotGradeOf(turnId: string): Row -> bool {
    (row: Row) => !GradesTurn(row, turnId)
  }

  /** Packets and grades in append order; of a turn's grades only the last one, in its own place. */
  function CreditEvents(log: seq<Row>): seq<Row>
    decreases |log|
  {
    if log == [] then []
    else
      var before, row := CreditEvents(log[..|log| - 1]), log[|log| - 1];
      match row
      case Malformed(_) => before
      case PacketRow(_, _) => before + [row]
      case OutcomeRow(_, turnId, _) => Filter(NotGradeOf(turnId), before) + [row]
  }

  /** The last packet the rows hold for a turn. */
  function PacketOf(rows: seq<Row>, turnId: string): Option<Packet>
    decreases |rows|
  {
    if rows == [] then None
    else
      var row := rows[|rows| - 1];
      if row.PacketRow? && row.packet.turnId == turnId then Some(row.packet)
      else PacketOf(rows[..|rows| - 1], turnId)
  }

  // ---------------------------------------------------------------------------
  // replayL0
  // ---------------------------------------------------------------------------

  ghost predicate OneGradePerTurn(rows: seq<Row>) {
    forall i, j | 0 <= i < j < |rows| && rows[i].OutcomeRow? && rows[j].OutcomeRow? :: rows[i].turnId != rows[j].turnId
  }

  method FindStale(rows: seq<Row>, turnId: string) returns (at: Option<nat>)
    ensures at.Some? ==> at.value < |rows| && GradesTurn(rows[at.value], turnId)
    ensures at.None? ==> forall k | 0 <= k < |rows| :: !GradesTurn(rows[k], turnId)
  {
    for k := 0 to |rows|
      invariant forall j | 0 <= j < k :: !GradesTurn(rows[j], turnId)
    {
      if GradesTurn(rows[k], turnId) {
        return Some(k);
      }
    }
    at := None;
  }

  lemma {:induction false} FilterAround<T(!new)>(p: T -> bool, before: seq<T>, x: T, rest: seq<T>)
    requires (forall y | y in before :: p(y)) && !p(x) && (forall y | y in rest :: p(y))
    ensures Filter(p, before + [x] + rest) == before + rest
  {
    var s := before + [x] + rest;
    if before == [] {
      assert s[1..] == rest;
      FilterEvery(p, rest);
    } else {
      assert s[0] == before[0] && s[1..] == before[1..] + [x] + rest;
      FilterAround(p, before[1..], x, rest);
      assert before + rest == [before[0]] + (before[1..] + rest);
    }
  }

  /** Splicing out the one stale grade is dropping every grade of the turn. */
  lemma SpliceIsFilter(rows: seq<Row>, turnId: string, k: nat)
    requires OneGradePerTurn(rows) && k < |rows| && GradesTurn(rows[k], turnId)
    ensures rows[..k] + rows[k + 1..] == Filter(NotGradeOf(turnId), rows)
  {
    var before, rest := rows[..k], rows[k + 1..];
    assert rows == before + [rows[k]] + rest;
    forall row | row in before ensures !GradesTurn(row, turnId) {
      var j :| 0 <= j < k && rows[j] == row;
    }
    forall row | row in rest ensures !GradesTurn(row, turnId) {
      var j :| 0 <= j < |rest| && rest[j] == row;
      assert rows[k + 1 + j] == row;
    }
    FilterAround(NotGradeOf(turnId), before, rows[k], rest);
  }

  lemma {:induction false} FilterKeepsOneGrade(rows: seq<Row>, turnId: string)
    requires OneGradePerTurn(rows)
    ensures OneGradePerTurn(Filter(NotGradeOf(turnId), rows))
  {
    if k :| 0 <= k < |rows| && GradesTurn(rows[k], turnId) {
      SpliceIsFilter(rows, turnId, k);
      var spliced := rows[..k] + rows[k + 1..];
      assert forall j | 0 <= j < |spliced| :: spliced[j] == if j < k then rows[j] else rows[j + 1];
    } else {
      assert forall row | row in rows :: NotGradeOf(turnId)(row);
      FilterEvery(NotGradeOf(turnId), rows);
    }
  }

  lemma {:induction false} EventsOneGrade(log: seq<Row>)
    ensures OneGradePerTurn(CreditEvents(log))
    decreases |log|
  {
    if log != [] {
      var init, row := log[..|log| - 1], log[|log| - 1];
      EventsOneGrade(init);
      if row.OutcomeRow? {
        FilterKeepsOneGrade(CreditEvents(init), row.turnId);
        var kept := Filter(NotGradeOf(row.turnId), CreditEvents(init));
        assert forall j | 0 <= j < |kept| :: kept[j] in kept;
      }
    }
  }

  /** The stale grade of the turn is spliced out, the new one goes last. */
  method Regrade(events: seq<Row>, row: Row) returns (next: seq<Row>)
    requires OneGradePerTurn(events) && row.OutcomeRow?
    ensures next == Filter(NotGradeOf(row.turnId), events) + [row]
  {
    next := events;
    var stale := FindStale(events, row.turnId);
    if stale.Some? {
      SpliceIsFilter(events, row.turnId, stale.value);
      next := events[..stale.value] + events[stale.value + 1..];
    } else {
      assert forall r | r in events :: NotGradeOf(row.turnId)(r);
      FilterEvery(NotGradeOf(row.turnId), events);
    }
    next := next + [row];
  }

  function MalformedIn(log: seq<Row>): nat
    decreases |log|
  {
    if log == [] then 0
    else MalformedIn(log[..|log| - 1]) + (if log[|log| - 1].Malformed? then 1 else 0)
  }

  method ReplayL0(log: seq<Row>) returns (events: seq<Row>, maxSeq: nat, malformed: nat)
    ensures events == CreditEvents(log) && maxSeq == MaxSeq(log) && malformed == MalformedIn(log)
  {
    events, maxSeq, malformed := [], 0, 0;
    for i := 0 to |log|
      invariant events == CreditEvents(log[..i]) && maxSeq == MaxSeq(log[..i]) && malformed == MalformedIn(log[..i])
    {
      var row := log[i];
      assert log[..i + 1][..i] == log[..i];
      maxSeq := Max(maxSeq, row.seqNo);
      match row
      case Malformed(_) => malformed := malformed + 1;
      case PacketRow(_, _) => events := events + [row];
      case OutcomeRow(_, _, _) =>
        EventsOneGrade(log[..i]);
        events := Regrade(events, row);
    }
    assert log[..|log|] == log;
  }

  // ---------------------------------------------------------------------------
  // replayWeights: from scratch
  // ---------------------------------------------------------------------------

  function Grade(w: Weights, p: Option<Packet>, sign: Sign): Weights {
    match p
    case None => w
    case Some(packet) => Applied(w, packet, sign)
  }

  /** Each grade credits the packet its turn has had so far. */
  function ReplayedWeights(rows: seq<Row>): Weights
    decreases |rows|
  {
    if rows == [] then map[]
    else
      var init, row := rows[..|rows| - 1], rows[|rows| - 1];
      match row
      case OutcomeRow(_, turnId, sign) => Grade(ReplayedWeights(init), PacketOf(init, turnId), sign)
      case _ => ReplayedWeights(init)
  }

  function Replayed(rows: seq<Row>): WeightsFile {
    WeightsFile(MaxSeq(rows), 0, ReplayedWeights(rows))
  }

  method ReplayWeights(rows: seq<Row>) returns (file: WeightsFile)
    ensures file == Replayed(rows)
  {
    var byTurn: map<string, Packet> := map[];
    var weights: Weights := map[];
    var lastSeq := 0;
    for i := 0 to |rows|
      invariant weights == ReplayedWeights(rows[..i]) && lastSeq == MaxSeq(rows[..i])
      invariant forall t :: PacketOf(rows[..i], t) == if t in byTurn then Some(byTurn[t]) else None
    {
      var row := rows[i];
      assert rows[..i + 1][..i] == rows[..i];
      lastSeq := Max(lastSeq, row.seqNo);
      match row
      case PacketRow(_, packet) => byTurn := byTurn[packet.turnId := packet];
      case OutcomeRow(_, turnId, sign) =>
        if turnId in byTurn {
          weights := ApplyOutcome(weights, byTurn[turnId], sign);
        }
      case Malformed(_) =>
    }
    assert rows[..|rows|] == rows;
    file := WeightsFile(lastSeq, 0, weights);
  }

  // ---------------------------------------------------------------------------
  // applyCredit: one night
  // ---------------------------------------------------------------------------

  /** The grades past the marker, each crediting the packet its turn has anywhere in the log. */
  function NightWeights(w: Weights, rows: seq<Row>, all: seq<Row>, lastSeq: nat): Weights
    decreases |rows|
  {
    if rows == [] then w
    else
      var before, row := NightWeights(w, rows[..|rows| - 1], all, lastSeq), rows[|rows| - 1];
      if row.OutcomeRow? && row.seqNo > lastSeq then Grade(before, PacketOf(all, row.turnId), row.sign) else before
  }

  datatype Stored = Missing | Unreadable | Readable(file: WeightsFile)

  /** No file is the launch state; one that does not parse is rebuilt from the log. */
  function Loaded(stored: Stored, log: seq<Row>): WeightsFile {
    match stored
    case Missing => EmptyFile()
    case Unreadable => Replayed(CreditEvents(log))
    case Readable(file) => file
  }

  function Night(file: WeightsFile, log: seq<Row>, today: nat): WeightsFile {
    var events := CreditEvents(log);
    var graded := NightWeights(file.weights, events, events, file.lastSeq);
    var decays := today > file.decayDay;
    WeightsFile(Max(file.lastSeq, MaxSeq(log)), if decays then today else file.decayDay,
                if decays then Decayed(graded) else graded)
  }

  method ApplyCredit(stored: Stored, log: seq<Row>, today: nat) returns (next: WeightsFile)
    ensures next == Night(Loaded(stored, log), log, today)
  {
    var events, maxSeq, malformed := ReplayL0(log);
    var file := EmptyFile();
    match stored {
      case Missing =>
      case Unreadable => file := ReplayWeights(events);
      case Readable(f) => file := f;
    }
    var byTurn := PacketsByTurn(events);
    var weights := file.weights;
    for i := 0 to |events|
      invariant weights == NightWeights(file.weights, events[..i], events, file.lastSeq)
    {
      var ev := events[i];
      assert events[..i + 1][..i] == events[..i];
      if !ev.OutcomeRow? || ev.seqNo <= file.lastSeq {
        continue;
      }
      if ev.turnId !in byTurn {
        continue;
      }
      weights := ApplyOutcome(weights, byTurn[ev.turnId], ev.sign);
    }
    assert events[..|events|] == events;
    var decayed := today > file.decayDay;
    if decayed {
      weights := DecayWeights(weights);
    }
    next := WeightsFile(Max(file.lastSeq, maxSeq), if decayed then today else file.decayDay, weights);
  }

  method PacketsByTurn(events: seq<Row>) returns (byTurn: map<string, Packet>)
    ensures forall t :: PacketOf(events, t) == if t in byTurn then Some(byTurn[t]) else None
  {
    byTurn := map[];
    for i := 0 to |events|
      invariant forall t :: PacketOf(events[..i], t) == if t in byTurn then Some(byTurn[t]) else None
    {
      assert events[..i + 1][..i] == events[..i];
      if events[i].PacketRow? {
        byTurn := byTurn[events[i].packet.turnId := events[i].packet];
      }
    }
    assert events[..|events|] == events;
  }

  // ---------------------------------------------------------------------------
  // Night after night equals from scratch
  // ---------------------------------------------------------------------------

  ghost predicate SeqRises(log: seq<Row>) {
    forall i, j | 0 <= i < j < |log| :: log[i].seqNo < log[j].seqNo
  }

  ghost predicate NoLatePacket(log: seq<Row>) {
    forall i, j | 0 <= i < j < |log| && log[i].OutcomeRow? && log[j].PacketRow? :: log[i].turnId != log[j].packet.turnId
  }

  /** No row from position `n` on grades a turn that was graded before it. */
  ghost predicate NoRegradeAcross(log: seq<Row>, n: nat) {
    forall i, j | 0 <= i < n <= j < |log| && log[i].OutcomeRow? && log[j].OutcomeRow? :: log[i].turnId != log[j].turnId
  }

  /** No packet comes after a grade of its turn, and no grade a night took in is given again. */
  ghost predicate Settles(log: seq<Row>, lens: seq<nat>) {
    NoLatePacket(log) && forall l | l in lens :: NoRegradeAcross(log, l)
  }

  ghost predicate PositiveSeqs(log: seq<Row>) {
    forall i | 0 <= i < |log| :: log[i].seqNo > 0
  }

  lemma {:induction false} EventInLog(log: seq<Row>, row: Row)
    requires row in CreditEvents(log)
    ensures row in log
    decreases |log|
  {
    var init, last := log[..|log| - 1], log[|log| - 1];
    assert log == init + [last];
    if row != last { EventInLog(init, row); }
  }

  lemma {:induction false} MaxSeqIsLast(log: seq<Row>, n: nat)
    requires SeqRises(log) && PositiveSeqs(log) && n <= |log|
    ensures MaxSeq(log[..n]) == if n == 0 then 0 else log[n - 1].seqNo
  {
    if n > 0 {
      MaxSeqIsLast(log, n - 1);
      assert log[..n][..n - 1] == log[..n - 1];
    }
  }

  /** A row is past the marker of a prefix exactly when it comes after the prefix. */
  lemma PastMarker(log: seq<Row>, n: nat, k: nat)
    requires SeqRises(log) && PositiveSeqs(log) && n <= |log| && k < |log|
    ensures log[k].seqNo > MaxSeq(log[..n]) <==> k >= n
  {
    MaxSeqIsLast(log, n);
  }

  /** What a window adds to the events when it regrades nothing before it. */
  lemma {:induction false} EventsSplit(log: seq<Row>, n: nat, m: nat)
    requires n <= m <= |log| && NoRegradeAcross(log, n)
    ensures CreditEvents(log[..m]) == CreditEvents(log[..n]) + CreditEvents(log[n..m])
    decreases m
  {
    if n < m {
      EventsSplit(log, n, m - 1);
      assert log[..m] == log[..m - 1] + [log[m - 1]] && log[n..m] == log[n..m - 1] + [log[m - 1]];
      UngradedEvents(log, n, m - 1);
      OneRowMore(log[..m - 1], log[n..m - 1], CreditEvents(log[..n]), log[m - 1]);
    }
  }

  lemma UngradedEvents(log: seq<Row>, n: nat, j: nat)
    requires n <= j < |log| && NoRegradeAcross(log, n)
    ensures log[j].OutcomeRow? ==> forall r | r in CreditEvents(log[..n]) :: NotGradeOf(log[j].turnId)(r)
  {
    forall r | r in CreditEvents(log[..n]) && log[j].OutcomeRow? ensures NotGradeOf(log[j].turnId)(r) {
      EventInLog(log[..n], r);
      var i :| 0 <= i < n && log[..n][i] == r;
      assert log[i] == r;
    }
  }

  /** A row that regrades nothing in `a` comes to the events of the whole as to those of the window. */
  lemma OneRowMore(whole: seq<Row>, window: seq<Row>, a: seq<Row>, row: Row)
    requires CreditEvents(whole) == a + CreditEvents(window)
    requires row.OutcomeRow? ==> forall r | r in a :: NotGradeOf(row.turnId)(r)
    ensures CreditEvents(whole + [row]) == a + CreditEvents(window + [row])
  {
    assert (whole + [row])[..|whole|] == whole && (window + [row])[..|window|] == window;
    if row.OutcomeRow? {
      FilterAppend(NotGradeOf(row.turnId), a, CreditEvents(window));
      FilterEvery(NotGradeOf(row.turnId), a);
    }
  }

  /** The same order, one row at a time. */
  ghost predicate PacketsFirst(rows: seq<Row>)
    decreases |rows|
  {
    rows == [] ||
    (var init, row := rows[..|rows| - 1], rows[|rows| - 1];
     PacketsFirst(init) && (row.PacketRow? ==> forall r | r in init :: !GradesTurn(r, row.packet.turnId)))
  }

  lemma {:induction false} FilterPacketsFirst(p: Row -> bool, rows: seq<Row>)
    requires PacketsFirst(rows)
    ensures PacketsFirst(Filter(p, rows))
    decreases |rows|
  {
    if rows != [] {
      var init, row := rows[..|rows| - 1], rows[|rows| - 1];
      FilterPacketsFirst(p, init);
      assert rows == init + [row];
      FilterSnoc(p, init, row);
      var kept := Filter(p, init);
      assert (kept + [row])[..|kept|] == kept;
    }
  }

  lemma {:induction false} EventsPacketsFirst(log: seq<Row>, m: nat)
    requires NoLatePacket(log) && m <= |log|
    ensures PacketsFirst(CreditEvents(log[..m]))
  {
    if m > 0 {
      var init, row := log[..m - 1], log[m - 1];
      assert log[..m][..m - 1] == init;
      EventsPacketsFirst(log, m - 1);
      match row
      case Malformed(_) =>
      case PacketRow(_, packet) =>
        forall r | r in CreditEvents(init) ensures !GradesTurn(r, packet.turnId) {
          EventInLog(init, r);
          var i :| 0 <= i < m - 1 && init[i] == r;
          assert log[i] == r;
        }
        assert (CreditEvents(init) + [row])[..|CreditEvents(init)|] == CreditEvents(init);
      case OutcomeRow(_, turnId, _) =>
        FilterPacketsFirst(NotGradeOf(turnId), CreditEvents(init));
        var kept := Filter(NotGradeOf(turnId), CreditEvents(init));
        assert (kept + [row])[..|kept|] == kept;
    }
  }

  lemma PacketSnoc(rows: seq<Row>, row: Row, turnId: string)
    ensures PacketOf(rows + [row], turnId)
            == if row.PacketRow? && row.packet.turnId == turnId then Some(row.packet) else PacketOf(rows, turnId)
  {
    assert (rows + [row])[..|rows|] == rows;
  }

  /** Once a turn is graded, the packet it is credited by does not change any more. */
  lemma {:induction false} PacketSettled(events: seq<Row>, k: nat)
    requires PacketsFirst(events) && k < |events| && events[k].OutcomeRow?
    ensures PacketOf(events, events[k].turnId) == PacketOf(events[..k], events[k].turnId)
    decreases |events|
  {
    var init, row := events[..|events| - 1], events[|events| - 1];
    if k < |init| {
      PacketSettled(init, k);
      assert init[k] == events[k] && init[..k] == events[..k];
      assert events[k] in init && GradesTurn(events[k], events[k].turnId);
    }
  }

  lemma ReplaySnoc(rows: seq<Row>, row: Row)
    ensures ReplayedWeights(rows + [row])
            == if row.OutcomeRow? then Grade(ReplayedWeights(rows), PacketOf(rows, row.turnId), row.sign)
               else ReplayedWeights(rows)
  {
    assert (rows + [row])[..|rows|] == rows;
  }

  lemma NightSnoc(w: Weights, rows: seq<Row>, row: Row, all: seq<Row>, lastSeq: nat)
    ensures NightWeights(w, rows + [row], all, lastSeq)
            == if row.OutcomeRow? && row.seqNo > lastSeq
               then Grade(NightWeights(w, rows, all, lastSeq), PacketOf(all, row.turnId), row.sign)
               else NightWeights(w, rows, all, lastSeq)
  {
    assert (rows + [row])[..|rows|] == rows;
  }

  /** The weights a replay of the first `n` rows gives. */
  function Scratch(log: seq<Row>, n: nat): Weights
    requires n <= |log|
  {
    ReplayedWeights(CreditEvents(log[..n]))
  }

  /** Past the first `k` events of the night, the pass stands where a replay of them would, or where it started. */
  lemma {:induction false} NightStands(events: seq<Row>, n: nat, lastSeq: nat, k: nat)
    requires PacketsFirst(events) && n <= |events| && k <= |events|
    requires forall i | 0 <= i < |events| :: events[i].seqNo > lastSeq <==> i >= n
    ensures NightWeights(ReplayedWeights(events[..n]), events[..k], events, lastSeq) == ReplayedWeights(events[..Max(k, n)])
  {
    if k > 0 {
      var row, before := events[k - 1], events[..k - 1];
      NightStands(events, n, lastSeq, k - 1);
      assert events[..k] == before + [row];
      NightSnoc(ReplayedWeights(events[..n]), before, row, events, lastSeq);
      ReplaySnoc(before, row);
      if row.OutcomeRow? {
        PacketSettled(events, k - 1);
      }
    }
  }

  /** The events of the prefix are behind the marker, those of the window past it. */
  lemma WindowPastMarker(log: seq<Row>, n: nat, m: nat)
    requires SeqRises(log) && PositiveSeqs(log) && n <= m <= |log| && NoRegradeAcross(log, n)
    ensures var events := CreditEvents(log[..m]); var old_ := |CreditEvents(log[..n])|;
            && old_ <= |events| && events[..old_] == CreditEvents(log[..n])
            && forall i | 0 <= i < |events| :: events[i].seqNo > MaxSeq(log[..n]) <==> i >= old_
  {
    var events, a, b := CreditEvents(log[..m]), CreditEvents(log[..n]), CreditEvents(log[n..m]);
    EventsSplit(log, n, m);
    forall i | 0 <= i < |events| ensures events[i].seqNo > MaxSeq(log[..n]) <==> i >= |a| {
      if i < |a| {
        assert events[i] == a[i];
        EventInLog(log[..n], a[i]);
        SeqAtMostMax(log[..n], a[i]);
      } else {
        assert events[i] == b[i - |a|];
        EventInLog(log[n..m], b[i - |a|]);
        var j :| 0 <= j < m - n && log[n..m][j] == b[i - |a|];
        PastMarker(log, n, n + j);
      }
    }
  }

  /** A night that starts from a replay of a prefix ends at the replay of the longer prefix it reads. */
  lemma NightCatchesUp(log: seq<Row>, n: nat, m: nat, file: WeightsFile, today: nat)
    requires SeqRises(log) && PositiveSeqs(log) && NoLatePacket(log) && n <= m <= |log| && NoRegradeAcross(log, n)
    requires file.weights == Scratch(log, n) && file.lastSeq == MaxSeq(log[..n]) && today <= file.decayDay
    ensures Night(file, log[..m], today) == WeightsFile(MaxSeq(log[..m]), file.decayDay, Scratch(log, m))
  {
    var events := CreditEvents(log[..m]);
    WindowPastMarker(log, n, m);
    EventsPacketsFirst(log, m);
    NightStands(events, |CreditEvents(log[..n])|, MaxSeq(log[..n]), |events|);
    assert events[..|events|] == events;
    MaxSeqIsLast(log, n);
    MaxSeqIsLast(log, m);
  }

  ghost predicate GrowingPrefixes(lens: seq<nat>, total: nat) {
    (forall i | 0 <= i < |lens| :: lens[i] <= total) && forall i, j | 0 <= i < j < |lens| :: lens[i] <= lens[j]
  }

  /** Where the window of the i-th night begins: at the prefix of the night before. */
  function From(lens: seq<nat>, i: nat): nat
    requires i <= |lens|
  {
    if i == 0 then 0 else lens[i - 1]
  }

  /** Nights over growing prefixes of the log, on a day on which nothing decays. */
  function NightRun(log: seq<Row>, lens: seq<nat>): WeightsFile
    requires forall i | 0 <= i < |lens| :: lens[i] <= |log|
    decreases |lens|
  {
    if lens == [] then EmptyFile()
    else Night(NightRun(log, lens[..|lens| - 1]), log[..lens[|lens| - 1]], 0)
  }

  /**
   * Decay aside, the nightly passes over any growing prefixes of the log end where a replay from
   * scratch ends, if in what the last night reads no packet comes after a grade of its turn and no
   * grade that a night took in is given again. Grades may be corrected as often as one likes before
   * the night.
   */
  lemma {:induction false} NightsEqualReplay(log: seq<Row>, lens: seq<nat>)
    requires SeqRises(log) && PositiveSeqs(log) && GrowingPrefixes(lens, |log|) && Settles(log[..From(lens, |lens|)], lens)
    ensures var n := From(lens, |lens|);
            NightRun(log, lens) == WeightsFile(MaxSeq(log[..n]), 0, Scratch(log, n))
    decreases |lens|
  {
    if lens == [] {
      assert log[..0] == [];
    } else {
      var init := lens[..|lens| - 1];
      assert From(init, |init|) == From(lens, |init|);
      EarlierSettles(log, lens);
      NightsEqualReplay(log, init);
      OneNightMore(log, lens, NightRun(log, init));
    }
  }

  /** The last night, on what the nights before it left. */
  lemma OneNightMore(log: seq<Row>, lens: seq<nat>, file: WeightsFile)
    requires lens != [] && SeqRises(log) && PositiveSeqs(log) && GrowingPrefixes(lens, |log|)
    requires Settles(log[..lens[|lens| - 1]], lens)
    requires var n := From(lens, |lens| - 1); file == WeightsFile(MaxSeq(log[..n]), 0, Scratch(log, n))
    ensures var m := lens[|lens| - 1];
            Night(file, log[..m], 0) == WeightsFile(MaxSeq(log[..m]), 0, Scratch(log, m))
  {
    var last := |lens| - 1;
    var n, m := From(lens, last), lens[last];
    var read := log[..m];
    assert read[..n] == log[..n] && read[..m] == read;
    assert NoRegradeAcross(read, n) by {
      if last > 0 { assert lens[last - 1] in lens; }
    }
    NightCatchesUp(read, n, m, file, 0);
  }

  lemma EarlierSettles(log: seq<Row>, lens: seq<nat>)
    requires lens != [] && GrowingPrefixes(lens, |log|) && Settles(log[..lens[|lens| - 1]], lens)
    ensures Settles(log[..From(lens, |lens| - 1)], lens[..|lens| - 1])
  {
    var last := |lens| - 1;
    var n, read := From(lens, last), log[..lens[last]];
    assert read[..n] == log[..n] && forall l | l in lens[..last] :: l in lens;
    SettlesBefore(read, n, lens, lens[..last]);
  }

  lemma SettlesBefore(log: seq<Row>, n: nat, lens: seq<nat>, some: seq<nat>)
    requires Settles(log, lens) && n <= |log| && forall l | l in some :: l in lens
    ensures Settles(log[..n], some)
  {
    forall l | l in some ensures NoRegradeAcross(log[..n], l) {
      assert NoRegradeAcross(log, l);
    }
  }

  // ---------------------------------------------------------------------------
  // The same night twice, and the range
  // ---------------------------------------------------------------------------

  lemma {:induction false} SeqAtMostMax(log: seq<Row>, row: Row)
    requires row in log
    ensures row.seqNo <= MaxSeq(log)
    decreases |log|
  {
    var init, last := log[..|log| - 1], log[|log| - 1];
    assert log == init + [last];
    if row != last { SeqAtMostMax(init, row); }
  }

  lemma {:induction false} NothingNew(w: Weights, rows: seq<Row>, all: seq<Row>, lastSeq: nat)
    requires forall row | row in rows :: row.seqNo <= lastSeq
    ensures NightWeights(w, rows, all, lastSeq) == w
    decreases |rows|
  {
    if rows != [] {
      assert rows[|rows| - 1] in rows;
      NothingNew(w, rows[..|rows| - 1], all, lastSeq);
    }
  }

  /** A second pass on the same day over the same log leaves the file as it is, whatever the log. */
  lemma SecondPassChangesNothing(file: WeightsFile, log: seq<Row>, today: nat)
    ensures var once := Night(file, log, today); Night(once, log, today) == once
  {
    var once, events := Night(file, log, today), CreditEvents(log);
    forall row | row in events ensures row.seqNo <= once.lastSeq {
      EventInLog(log, row);
      SeqAtMostMax(log, row);
    }
    NothingNew(once.weights, events, events, once.lastSeq);
  }

  /** A night that finds an unreadable file ends with the weights of a replay, decayed if a day has passed; a missing one starts from neutral. */
  lemma UnreadableIsRebuilt(log: seq<Row>, today: nat)
    ensures var rebuilt, grown := ReplayedWeights(CreditEvents(log)), NightWeights(map[], CreditEvents(log), CreditEvents(log), 0);
            && Night(Loaded(Unreadable, log), log, today).weights == (if today > 0 then Decayed(rebuilt) else rebuilt)
            && Night(Loaded(Missing, log), log, today).weights == (if today > 0 then Decayed(grown) else grown)
  {
    var events := CreditEvents(log);
    forall row | row in events ensures row.seqNo <= MaxSeq(events) {
      SeqAtMostMax(events, row);
    }
    NothingNew(ReplayedWeights(events), events, events, MaxSeq(events));
  }

  /** Passes over the same log on the days given, in turn. */
  function Nightly(file: WeightsFile, log: seq<Row>, days: seq<nat>): WeightsFile
    decreases |days|
  {
    if days == [] then file else Night(Nightly(file, log, days[..|days| - 1]), log, days[|days| - 1])
  }

  /** The latest of a day and the days given. */
  function LatestDay(day: nat, days: seq<nat>): nat
    decreases |days|
  {
    if days == [] then day else Max(LatestDay(day, days[..|days| - 1]), days[|days| - 1])
  }

  /** How many of the days are later than the given one and all days before them. */
  function NewDays(day: nat, days: seq<nat>): nat
    decreases |days|
  {
    if days == [] then 0
    else
      var init, last := days[..|days| - 1], days[|days| - 1];
      NewDays(day, init) + (if last > LatestDay(day, init) then 1 else 0)
  }

  lemma IdleNight(file: WeightsFile, log: seq<Row>, today: nat)
    requires MaxSeq(log) <= file.lastSeq
    ensures Night(file, log, today) ==
            if today > file.decayDay then WeightsFile(file.lastSeq, today, Decayed(file.weights)) else file
  {
    var events := CreditEvents(log);
    forall row | row in events ensures row.seqNo <= file.lastSeq {
      EventInLog(log, row);
      SeqAtMostMax(log, row);
    }
    NothingNew(file.weights, events, events, file.lastSeq);
  }

  /**
   * Over any passes with nothing new in the log, on whatever days: each weight decays once for each
   * day later than all before, however often the pass runs on it.
   */
  lemma {:induction false} DecaysOncePerDay(file: WeightsFile, log: seq<Row>, days: seq<nat>, id: string)
    requires MaxSeq(log) <= file.lastSeq && id in file.weights
    ensures var after := Nightly(file, log, days);
            && after.lastSeq == file.lastSeq && after.decayDay == LatestDay(file.decayDay, days)
            && after.weights.Keys == file.weights.Keys
            && after.weights[id] == Nights(file.weights[id], NewDays(file.decayDay, days))
    decreases |days|
  {
    if days != [] {
      var init, last := days[..|days| - 1], days[|days| - 1];
      DecaysOncePerDay(file, log, init, id);
      IdleNight(Nightly(file, log, init), log, last);
    }
  }

  lemma {:induction false} NightWeightsInRange(w: Weights, rows: seq<Row>, all: seq<Row>, lastSeq: nat)
    requires InRange(w)
    ensures InRange(NightWeights(w, rows, all, lastSeq))
    decreases |rows|
  {
    if rows != [] {
      var init, row := rows[..|rows| - 1], rows[|rows| - 1];
      NightWeightsInRange(w, init, all, lastSeq);
      if row.OutcomeRow? && row.seqNo > lastSeq && PacketOf(all, row.turnId).Some? {
        var p := PacketOf(all, row.turnId).value;
        CreditedInRange(NightWeights(w, init, all, lastSeq), p.slots, row.sign, MoodGuardFor(p.affectSig));
      }
    }
  }

  /** No night, decaying or not, takes a weight out of its range. */
  lemma NightInRange(file: WeightsFile, log: seq<Row>, today: nat)
    requires InRange(file.weights)
    ensures InRange(Night(file, log, today).weights)
  {
    var events := CreditEvents(log);
    NightWeightsInRange(file.weights, events, events, file.lastSeq);
  }

  // ---------------------------------------------------------------------------
  // Where night after night and from scratch part
  // ---------------------------------------------------------------------------

  function OneSlot(turnId: string): Packet {
    Packet(turnId, [Slot("e", Episode, false)], [])
  }

  lemma OneSlotApplied(w: Weights, turnId: string, sign: Sign)
    ensures Applied(w, OneSlot(turnId), sign) == w["e" := ClampWeight(Current(w, "e") + CREDIT_ETA * SignOf(sign))]
  {
    var slots := OneSlot(turnId).slots;
    assert slots[..0] == [];
    assert AversiveSquares([], 12) == AversiveSquares([], 11) == AversiveSquares([], 10);
    assert AversiveSquares([], 10) == AversiveSquares([], 9) == AversiveSquares([], 8) == AversiveSquares([], 7) == 0.0;
    assert Credited(w, slots[..0], sign, 1.0) == w;
  }

  lemma RegradedEvents(p: Row, first: Row, second: Row)
    requires p.PacketRow? && first.OutcomeRow? && second.OutcomeRow? && first.turnId == second.turnId
    ensures CreditEvents([p]) == [p] && CreditEvents([p, first]) == [p, first]
    ensures CreditEvents([p, first, second]) == [p, second]
    ensures MaxSeq([p, first]) == Max(p.seqNo, first.seqNo)
  {
    assert [p, first, second][..2] == [p, first] && [p, first][..1] == [p] && [p][..0] == [];
    assert [p, first][1..] == [first] && [p][1..] == [] && [first][1..] == [];
    assert CreditEvents([p]) == [p] && MaxSeq([p]) == p.seqNo;
    assert Filter(NotGradeOf(first.turnId), [p]) == [p];
    assert Filter(NotGradeOf(first.turnId), [first]) == [];
    assert Filter(NotGradeOf(first.turnId), [p, first]) == [p];
    assert CreditEvents([p, first]) == [p, first];
  }

  lemma FirstNight(p: Row, first: Row, turnId: string)
    requires p == PacketRow(1, OneSlot(turnId)) && first == OutcomeRow(2, turnId, Plus)
    ensures Night(EmptyFile(), [p, first], 0) == WeightsFile(2, 0, map["e" := 1.02])
  {
    RegradedEvents(p, first, first);
    TwoRows(p, first, map[], 0);
    OneSlotApplied(map[], turnId, Plus);
    RoundsOnGrid();
  }

  lemma SecondNight(p: Row, first: Row, second: Row, turnId: string)
    requires p == PacketRow(1, OneSlot(turnId)) && first == OutcomeRow(2, turnId, Plus)
    requires second == OutcomeRow(3, turnId, Minus)
    ensures Night(WeightsFile(2, 0, map["e" := 1.02]), [p, first, second], 0).weights == map["e" := 1.0]
    ensures ReplayedWeights(CreditEvents([p, first, second])) == map["e" := 0.98]
  {
    RegradedEvents(p, first, second);
    TwoRows(p, second, map["e" := 1.02], 2);
    TwoRows(p, second, map[], 2);
    OneSlotApplied(map["e" := 1.02], turnId, Minus);
    OneSlotApplied(map[], turnId, Minus);
    RoundsOnGrid();
  }

  lemma TwoNights(log: seq<Row>, n: nat, m: nat)
    requires n <= |log| && m <= |log|
    ensures NightRun(log, [n, m]) == Night(Night(EmptyFile(), log[..n], 0), log[..m], 0)
  {
    assert [n, m][..1] == [n] && [n][..0] == [];
    assert NightRun(log, [n]) == Night(NightRun(log, []), log[..n], 0);
  }

  /** A grade given after the night that took in the first one counts on top of it. */
  lemma RegradeCountsTwice(turnId: string)
    ensures var log := [PacketRow(1, OneSlot(turnId)), OutcomeRow(2, turnId, Plus), OutcomeRow(3, turnId, Minus)];
            NightRun(log, [2, 3]).weights == map["e" := 1.0] && Scratch(log, 3) == map["e" := 0.98]
  {
    var p, first, second := PacketRow(1, OneSlot(turnId)), OutcomeRow(2, turnId, Plus), OutcomeRow(3, turnId, Minus);
    var log := [p, first, second];
    assert log[..2] == [p, first] && log[..3] == log;
    TwoNights(log, 2, 3);
    FirstNight(p, first, turnId);
    SecondNight(p, first, second, turnId);
  }

  lemma RoundsOnGrid()
    ensures ClampWeight(1.0 + CREDIT_ETA * SignOf(Plus)) == 1.02
    ensures ClampWeight(1.0 + CREDIT_ETA * SignOf(Minus)) == 0.98
    ensures ClampWeight(1.02 + CREDIT_ETA * SignOf(Minus)) == 1.0
  {
    assert (1020000.5 as real).Floor == 1020000;
    assert (980000.5 as real).Floor == 980000;
    assert (1000000.5 as real).Floor == 1000000;
  }

  /** A packet and a grade of its turn, past the marker. */
  lemma TwoRows(p: Row, g: Row, w: Weights, lastSeq: nat)
    requires p.PacketRow? && g.OutcomeRow? && p.packet.turnId == g.turnId && g.seqNo > lastSeq
    ensures NightWeights(w, [p, g], [p, g], lastSeq) == Applied(w, p.packet, g.sign)
    ensures ReplayedWeights([p, g]) == Applied(map[], p.packet, g.sign)
  {
    assert [p, g][..1] == [p] && [p][..0] == [];
    assert PacketOf([p], g.turnId) == Some(p.packet);
    assert PacketOf([p, g], g.turnId) == PacketOf([p], g.turnId);
    assert NightWeights(w, [p], [p, g], lastSeq) == NightWeights(w, [], [p, g], lastSeq) == w;
    assert ReplayedWeights([p]) == ReplayedWeights([]) == map[];
  }

  lemma LateEvents(g: Row, p: Row)
    requires g.OutcomeRow? && p.PacketRow?
    ensures CreditEvents([g, p]) == [g, p]
  {
    assert [g, p][..1] == [g] && [g][..0] == [];
    assert CreditEvents([g]) == [g];
  }

  /** A grade and a later packet of its turn, past the marker. */
  lemma LateRows(g: Row, p: Row, w: Weights, lastSeq: nat)
    requires p.PacketRow? && g.OutcomeRow? && p.packet.turnId == g.turnId && g.seqNo > lastSeq
    ensures NightWeights(w, [g, p], [g, p], lastSeq) == Applied(w, p.packet, g.sign)
    ensures ReplayedWeights([g, p]) == map[]
  {
    assert [g, p][..1] == [g] && [g][..0] == [];
    assert PacketOf([g, p], g.turnId) == Some(p.packet) && PacketOf([], g.turnId) == None;
    assert NightWeights(w, [g], [g, p], lastSeq) == Applied(NightWeights(w, [], [g, p], lastSeq), p.packet, g.sign);
    assert ReplayedWeights([g]) == ReplayedWeights([]) == map[];
  }

  lemma OneNight(log: seq<Row>)
    ensures NightRun(log, [|log|]) == Night(EmptyFile(), log, 0)
  {
    assert [|log|][..0] == [] && log[..|log|] == log;
    assert NightRun(log, []) == EmptyFile();
  }

  /** A packet logged after its grade is credited by the night and ignored by the replay. */
  lemma LatePacketIsCreditedByNightOnly(turnId: string)
    ensures var log := [OutcomeRow(1, turnId, Plus), PacketRow(2, OneSlot(turnId))];
            NightRun(log, [2]).weights == map["e" := 1.02] && Scratch(log, 2) == map[]
  {
    var g, p := OutcomeRow(1, turnId, Plus), PacketRow(2, OneSlot(turnId));
    LateEvents(g, p);
    LateRows(g, p, map[], 0);
    OneNight([g, p]);
    OneSlotApplied(map[], turnId, Plus);
    RoundsOnGrid();
    assert [g, p][..2] == [g, p];
  }
}
