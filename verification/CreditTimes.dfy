/**
 * How often a turn's grade is applied: by the nights, once for every night that reads a grade of
 * the turn in its own window with a packet of it in the log; by the replay, once if a packet
 * precedes the last grade.
 */
module CreditTimes {
  import opened Orders
  import opened Credit
  import opened NightlyCredit

  // ---------------------------------------------------------------------------
  // The credits behind the weights
  // ---------------------------------------------------------------------------

  datatype Given = Given(turnId: string, packet: Packet, sign: Sign)

  function GivenAll(w: Weights, credits: seq<Given>): Weights
    decreases |credits|
  {
    if credits == [] then w
    else
      var last := credits[|credits| - 1];
      Applied(GivenAll(w, credits[..|credits| - 1]), last.packet, last.sign)
  }

  function CreditFor(row: Row, p: Option<Packet>): seq<Given>
    requires row.OutcomeRow?
  {
    match p
    case None => []
    case Some(packet) => [Given(row.turnId, packet, row.sign)]
  }

  /** What one night applies. */
  function NightCredits(rows: seq<Row>, all: seq<Row>, lastSeq: nat): seq<Given>
    decreases |rows|
  {
    if rows == [] then []
    else
      var before, row := NightCredits(rows[..|rows| - 1], all, lastSeq), rows[|rows| - 1];
      if row.OutcomeRow? && row.seqNo > lastSeq then before + CreditFor(row, PacketOf(all, row.turnId)) else before
  }

  /** What a replay applies. */
  function ReplayCredits(rows: seq<Row>): seq<Given>
    decreases |rows|
  {
    if rows == [] then []
    else
      var init, row := rows[..|rows| - 1], rows[|rows| - 1];
      if row.OutcomeRow? then ReplayCredits(init) + CreditFor(row, PacketOf(init, row.turnId)) else ReplayCredits(init)
  }

  lemma {:induction false} GivenAppend(w: Weights, a: seq<Given>, b: seq<Given>)
    ensures GivenAll(w, a + b) == GivenAll(GivenAll(w, a), b)
    decreases |b|
  {
    if b == [] {
      assert a + b == a;
    } else {
      assert (a + b)[..|a + b| - 1] == a + b[..|b| - 1];
      GivenAppend(w, a, b[..|b| - 1]);
    }
  }

  lemma GradeGives(w: Weights, row: Row, p: Option<Packet>)
    requires row.OutcomeRow?
    ensures GivenAll(w, CreditFor(row, p)) == Grade(w, p, row.sign)
  {
    if p.Some? {
      var one := [Given(row.turnId, p.value, row.sign)];
      assert one[..0] == [] && GivenAll(w, []) == w;
    }
  }

  lemma {:induction false} NightGives(w: Weights, rows: seq<Row>, all: seq<Row>, lastSeq: nat)
    ensures NightWeights(w, rows, all, lastSeq) == GivenAll(w, NightCredits(rows, all, lastSeq))
    decreases |rows|
  {
    if rows != [] {
      var init, row := rows[..|rows| - 1], rows[|rows| - 1];
      NightGives(w, init, all, lastSeq);
      if row.OutcomeRow? && row.seqNo > lastSeq {
        var given := NightCredits(init, all, lastSeq);
        GivenAppend(w, given, CreditFor(row, PacketOf(all, row.turnId)));
        GradeGives(GivenAll(w, given), row, PacketOf(all, row.turnId));
      }
    }
  }

  lemma {:induction false} ReplayGives(rows: seq<Row>)
    ensures ReplayedWeights(rows) == GivenAll(map[], ReplayCredits(rows))
    decreases |rows|
  {
    if rows != [] {
      var init, row := rows[..|rows| - 1], rows[|rows| - 1];
      ReplayGives(init);
      if row.OutcomeRow? {
        GivenAppend(map[], ReplayCredits(init), CreditFor(row, PacketOf(init, row.turnId)));
        GradeGives(GivenAll(map[], ReplayCredits(init)), row, PacketOf(init, row.turnId));
      }
    }
  }

  /** What all the nights over these prefixes apply, in order. */
  function RunCredits(log: seq<Row>, lens: seq<nat>): seq<Given>
    requires forall i | 0 <= i < |lens| :: lens[i] <= |log|
    decreases |lens|
  {
    if lens == [] then []
    else
      var init, events := lens[..|lens| - 1], CreditEvents(log[..lens[|lens| - 1]]);
      RunCredits(log, init) + NightCredits(events, events, NightRun(log, init).lastSeq)
  }

  /** The stored weights are these credits and nothing else. */
  lemma {:induction false} NightsGive(log: seq<Row>, lens: seq<nat>)
    requires forall i | 0 <= i < |lens| :: lens[i] <= |log|
    ensures NightRun(log, lens).weights == GivenAll(map[], RunCredits(log, lens)) && NightRun(log, lens).decayDay == 0
    decreases |lens|
  {
    if lens != [] {
      var init, events := lens[..|lens| - 1], CreditEvents(log[..lens[|lens| - 1]]);
      NightsGive(log, init);
      NightGives(NightRun(log, init).weights, events, events, NightRun(log, init).lastSeq);
      GivenAppend(map[], RunCredits(log, init), NightCredits(events, events, NightRun(log, init).lastSeq));
    }
  }

  function ForTurn(t: string): Given -> bool {
    (g: Given) => g.turnId == t
  }

  /** How often a list of credits applies a grade of the turn. */
  function Times(credits: seq<Given>, t: string): nat {
    |Filter(ForTurn(t), credits)|
  }

  lemma TimesAppend(a: seq<Given>, b: seq<Given>, t: string)
    ensures Times(a + b, t) == Times(a, t) + Times(b, t)
  {
    FilterAppend(ForTurn(t), a, b);
  }

  lemma TimesOfOne(row: Row, p: Option<Packet>, t: string)
    requires row.OutcomeRow?
    ensures Times(CreditFor(row, p), t) == if p.Some? && row.turnId == t then 1 else 0
  {
    if p.Some? {
      var one := [Given(row.turnId, p.value, row.sign)];
      assert one[1..] == [];
    }
  }

  // ---------------------------------------------------------------------------
  // What the events keep of the log
  // ---------------------------------------------------------------------------

  predicate PacketFor(row: Row, t: string) {
    row.PacketRow? && row.packet.turnId == t
  }

  ghost predicate HasPacket(rows: seq<Row>, t: string) {
    exists row | row in rows :: PacketFor(row, t)
  }

  lemma HasPacketSnoc(rows: seq<Row>, row: Row, t: string)
    ensures HasPacket(rows + [row], t) <==> HasPacket(rows, t) || PacketFor(row, t)
  {
    assert forall r :: r in rows + [row] <==> r in rows || r == row;
  }

  lemma {:induction false} PacketOfIff(rows: seq<Row>, t: string)
    ensures PacketOf(rows, t).Some? <==> HasPacket(rows, t)
    decreases |rows|
  {
    if rows != [] {
      var init, row := rows[..|rows| - 1], rows[|rows| - 1];
      PacketOfIff(init, t);
      assert rows == init + [row];
      HasPacketSnoc(init, row, t);
    }
  }

  lemma {:induction false} PacketOfKept(rows: seq<Row>, u: string, t: string)
    ensures PacketOf(Filter(NotGradeOf(u), rows), t) == PacketOf(rows, t)
    decreases |rows|
  {
    if rows != [] {
      var init, row := rows[..|rows| - 1], rows[|rows| - 1];
      PacketOfKept(init, u, t);
      assert rows == init + [row];
      FilterSnoc(NotGradeOf(u), init, row);
      if NotGradeOf(u)(row) {
        PacketSnoc(Filter(NotGradeOf(u), init), row, t);
      }
    }
  }

  /** The events hold the packets of the log. */
  lemma {:induction false} PacketOfEvents(log: seq<Row>, t: string)
    ensures PacketOf(CreditEvents(log), t) == PacketOf(log, t)
    decreases |log|
  {
    if log != [] {
      var init, row := log[..|log| - 1], log[|log| - 1];
      PacketOfEvents(init, t);
      match row
      case Malformed(_) =>
      case PacketRow(_, _) => PacketSnoc(CreditEvents(init), row, t);
      case OutcomeRow(_, u, _) =>
        PacketOfKept(CreditEvents(init), u, t);
        PacketSnoc(Filter(NotGradeOf(u), CreditEvents(init)), row, t);
    }
  }

  function PastGradeOf(t: string, lastSeq: nat): Row -> bool {
    (row: Row) => GradesTurn(row, t) && row.seqNo > lastSeq
  }

  /** A grade of the turn in this stretch of the log. */
  ghost predicate GradedIn(log: seq<Row>, n: nat, m: nat, t: string) {
    exists k: nat :: n <= k < m <= |log| && GradesTurn(log[k], t)
  }

  /** A regrade leaves of the turn's grades the new one only, of other turns' all. */
  lemma RegradedPast(before: seq<Row>, row: Row, t: string, lastSeq: nat)
    requires row.OutcomeRow?
    ensures |Filter(PastGradeOf(t, lastSeq), Filter(NotGradeOf(row.turnId), before) + [row])|
            == if row.turnId == t then (if row.seqNo > lastSeq then 1 else 0) else |Filter(PastGradeOf(t, lastSeq), before)|
  {
    var p, kept := PastGradeOf(t, lastSeq), Filter(NotGradeOf(row.turnId), before);
    FilterSnoc(p, kept, row);
    if row.turnId == t {
      FilterNone(p, kept);
    } else {
      FilterTwice(p, NotGradeOf(row.turnId), before);
    }
  }

  /** Of a turn's grades past the marker the events hold one if the window has any, and none otherwise. */
  lemma {:induction false} GradesPast(log: seq<Row>, n: nat, m: nat, t: string)
    requires SeqRises(log) && PositiveSeqs(log) && n <= |log| && m <= |log|
    ensures |Filter(PastGradeOf(t, MaxSeq(log[..n])), CreditEvents(log[..m]))| == if GradedIn(log, n, m, t) then 1 else 0
    decreases m
  {
    if m == 0 {
      assert log[..0] == [];
    } else if GradesTurn(log[m - 1], t) {
      PastGrade(log, n, m, t);
    } else {
      GradesPast(log, n, m - 1, t);
      PastOther(log, n, m, t);
    }
  }

  lemma PastGrade(log: seq<Row>, n: nat, m: nat, t: string)
    requires SeqRises(log) && PositiveSeqs(log) && n <= |log| && 0 < m <= |log| && GradesTurn(log[m - 1], t)
    ensures |Filter(PastGradeOf(t, MaxSeq(log[..n])), CreditEvents(log[..m]))| == if n <= m - 1 then 1 else 0
    ensures GradedIn(log, n, m, t) <==> n <= m - 1
  {
    assert log[..m] == log[..m - 1] + [log[m - 1]];
    PastSnoc(log[..m - 1], log[m - 1], t, MaxSeq(log[..n]));
    PastMarker(log, n, m - 1);
  }

  lemma PastOther(log: seq<Row>, n: nat, m: nat, t: string)
    requires n <= |log| && 0 < m <= |log| && !GradesTurn(log[m - 1], t)
    ensures |Filter(PastGradeOf(t, MaxSeq(log[..n])), CreditEvents(log[..m]))|
            == |Filter(PastGradeOf(t, MaxSeq(log[..n])), CreditEvents(log[..m - 1]))|
    ensures GradedIn(log, n, m, t) <==> GradedIn(log, n, m - 1, t)
  {
    assert log[..m] == log[..m - 1] + [log[m - 1]];
    PastSnoc(log[..m - 1], log[m - 1], t, MaxSeq(log[..n]));
  }

  lemma PastSnoc(log: seq<Row>, row: Row, t: string, lastSeq: nat)
    ensures |Filter(PastGradeOf(t, lastSeq), CreditEvents(log + [row]))|
            == if GradesTurn(row, t) then (if row.seqNo > lastSeq then 1 else 0)
               else |Filter(PastGradeOf(t, lastSeq), CreditEvents(log))|
  {
    assert (log + [row])[..|log|] == log;
    match row
    case Malformed(_) =>
    case PacketRow(_, _) => FilterSnoc(PastGradeOf(t, lastSeq), CreditEvents(log), row);
    case OutcomeRow(_, _, _) => RegradedPast(CreditEvents(log), row, t, lastSeq);
  }

  // ---------------------------------------------------------------------------
  // The nights
  // ---------------------------------------------------------------------------

  lemma {:induction false} TimesOfNight(rows: seq<Row>, all: seq<Row>, lastSeq: nat, t: string)
    ensures Times(NightCredits(rows, all, lastSeq), t)
            == if PacketOf(all, t).Some? then |Filter(PastGradeOf(t, lastSeq), rows)| else 0
    decreases |rows|
  {
    if rows != [] {
      var init, row := rows[..|rows| - 1], rows[|rows| - 1];
      TimesOfNight(init, all, lastSeq, t);
      assert rows == init + [row];
      FilterSnoc(PastGradeOf(t, lastSeq), init, row);
      if row.OutcomeRow? && row.seqNo > lastSeq {
        TimesAppend(NightCredits(init, all, lastSeq), CreditFor(row, PacketOf(all, row.turnId)), t);
        TimesOfOne(row, PacketOf(all, row.turnId), t);
      }
    }
  }

  /** The night reads a grade of the turn in its own window, and the log it reads has a packet of it. */
  ghost predicate Credits(log: seq<Row>, lens: seq<nat>, i: nat, t: string) {
    i < |lens| && lens[i] <= |log| && GradedIn(log, From(lens, i), lens[i], t) && HasPacket(log[..lens[i]], t)
  }

  ghost function CreditsTurn(log: seq<Row>, lens: seq<nat>, t: string): nat -> bool {
    (i: nat) => Credits(log, lens, i, t)
  }

  ghost function Below(n: nat, p: nat -> bool): set<nat> {
    set i: nat | i < n && p(i)
  }

  ghost function CreditingNights(log: seq<Row>, lens: seq<nat>, t: string): set<nat> {
    Below(|lens|, CreditsTurn(log, lens, t))
  }

  lemma BelowSnoc(n: nat, p: nat -> bool, q: nat -> bool)
    requires forall i: nat | i < n :: p(i) == q(i)
    ensures |Below(n + 1, p)| == |Below(n, q)| + (if p(n) then 1 else 0)
  {
    if p(n) {
      assert Below(n + 1, p) == Below(n, q) + {n};
    } else {
      assert Below(n + 1, p) == Below(n, q);
    }
  }

  ghost predicate Only(n: nat, p: nat -> bool, i: nat) {
    i < n && p(i) && forall j: nat | j < n && p(j) :: j == i
  }

  lemma OneBelow(n: nat, p: nat -> bool)
    ensures |Below(n, p)| == 1 <==> exists i: nat :: Only(n, p, i)
  {
    if i: nat :| Only(n, p, i) {
      assert Below(n, p) == {i};
    }
    if |Below(n, p)| == 1 {
      var i := PickOne(Below(n, p));
      assert |Below(n, p) - {i}| == 0;
      forall j: nat | j < n && p(j) ensures j == i {
        assert j in Below(n, p);
      }
      assert Only(n, p, i);
    }
  }

  lemma {:induction false} MarkerOfRun(log: seq<Row>, lens: seq<nat>)
    requires SeqRises(log) && PositiveSeqs(log) && GrowingPrefixes(lens, |log|)
    ensures NightRun(log, lens).lastSeq == MaxSeq(log[..From(lens, |lens|)])
    decreases |lens|
  {
    if lens == [] {
      assert log[..0] == [];
    } else {
      var init := lens[..|lens| - 1];
      MarkerOfRun(log, init);
      MaxSeqIsLast(log, From(init, |init|));
      MaxSeqIsLast(log, lens[|lens| - 1]);
    }
  }

  lemma CreditingSnoc(log: seq<Row>, lens: seq<nat>, t: string)
    requires lens != []
    ensures var last := |lens| - 1;
            |CreditingNights(log, lens, t)|
            == |CreditingNights(log, lens[..last], t)| + (if Credits(log, lens, last, t) then 1 else 0)
  {
    var last := |lens| - 1;
    var init := lens[..last];
    forall i: nat | i < last ensures CreditsTurn(log, lens, t)(i) == CreditsTurn(log, init, t)(i) {
      assert From(lens, i) == From(init, i) && lens[i] == init[i];
    }
    BelowSnoc(last, CreditsTurn(log, lens, t), CreditsTurn(log, init, t));
  }

  lemma TimesOfOneNight(log: seq<Row>, n: nat, m: nat, t: string)
    requires SeqRises(log) && PositiveSeqs(log) && n <= |log| && m <= |log|
    ensures var events := CreditEvents(log[..m]);
            Times(NightCredits(events, events, MaxSeq(log[..n])), t)
            == if GradedIn(log, n, m, t) && HasPacket(log[..m], t) then 1 else 0
  {
    var events := CreditEvents(log[..m]);
    TimesOfNight(events, events, MaxSeq(log[..n]), t);
    GradesPast(log, n, m, t);
    PacketOfEvents(log[..m], t);
    PacketOfIff(log[..m], t);
  }

  /** The nights apply a grade of the turn once for every crediting night. */
  lemma {:induction false} TimesOverNights(log: seq<Row>, lens: seq<nat>, t: string)
    requires SeqRises(log) && PositiveSeqs(log) && GrowingPrefixes(lens, |log|)
    ensures Times(RunCredits(log, lens), t) == |CreditingNights(log, lens, t)|
    decreases |lens|
  {
    if lens == [] {
      assert CreditingNights(log, lens, t) == {};
    } else {
      var last := |lens| - 1;
      var init, events := lens[..last], CreditEvents(log[..lens[last]]);
      TimesOverNights(log, init, t);
      MarkerOfRun(log, init);
      assert From(init, last) == From(lens, last);
      TimesOfOneNight(log, From(lens, last), lens[last], t);
      TimesAppend(RunCredits(log, init), NightCredits(events, events, NightRun(log, init).lastSeq), t);
      CreditingSnoc(log, lens, t);
    }
  }

  /** The promise that a grade counts once, met exactly when one night alone credits the turn. */
  lemma CreditedOnceIff(log: seq<Row>, lens: seq<nat>, t: string)
    requires SeqRises(log) && PositiveSeqs(log) && GrowingPrefixes(lens, |log|)
    ensures Times(RunCredits(log, lens), t) == 1 <==> exists i: nat :: Only(|lens|, CreditsTurn(log, lens, t), i)
  {
    TimesOverNights(log, lens, t);
    OneBelow(|lens|, CreditsTurn(log, lens, t));
  }

  // ---------------------------------------------------------------------------
  // The replay
  // ---------------------------------------------------------------------------

  /** The last grade of the turn has a packet of the turn before it. */
  ghost predicate PacketBeforeLastGrade(log: seq<Row>, t: string) {
    exists k: nat :: k < |log| && LastGradeAt(log, k, t) && HasPacket(log[..k], t)
  }

  ghost predicate LastGradeAt(log: seq<Row>, k: nat, t: string)
    requires k < |log|
  {
    GradesTurn(log[k], t) && !GradedIn(log, k + 1, |log|, t)
  }

  lemma {:induction false} UngradedReplay(rows: seq<Row>, t: string)
    requires forall row | row in rows :: !GradesTurn(row, t)
    ensures Times(ReplayCredits(rows), t) == 0
    decreases |rows|
  {
    if rows != [] {
      var init, row := rows[..|rows| - 1], rows[|rows| - 1];
      assert row in rows && forall r | r in init :: r in rows;
      UngradedReplay(init, t);
      if row.OutcomeRow? {
        TimesAppend(ReplayCredits(init), CreditFor(row, PacketOf(init, row.turnId)), t);
        TimesOfOne(row, PacketOf(init, row.turnId), t);
      }
    }
  }

  lemma ReplayTimesSnoc(rows: seq<Row>, row: Row, t: string)
    ensures Times(ReplayCredits(rows + [row]), t)
            == Times(ReplayCredits(rows), t) + (if GradesTurn(row, t) && PacketOf(rows, t).Some? then 1 else 0)
  {
    assert (rows + [row])[..|rows|] == rows;
    if row.OutcomeRow? {
      TimesAppend(ReplayCredits(rows), CreditFor(row, PacketOf(rows, row.turnId)), t);
      TimesOfOne(row, PacketOf(rows, row.turnId), t);
    }
  }

  /** Dropping the grades of another turn changes nothing for this one. */
  lemma {:induction false} ReplayWithoutOther(rows: seq<Row>, u: string, t: string)
    requires u != t
    ensures Times(ReplayCredits(Filter(NotGradeOf(u), rows)), t) == Times(ReplayCredits(rows), t)
    decreases |rows|
  {
    if rows != [] {
      var init, row := rows[..|rows| - 1], rows[|rows| - 1];
      ReplayWithoutOther(init, u, t);
      assert rows == init + [row];
      FilterSnoc(NotGradeOf(u), init, row);
      ReplayTimesSnoc(init, row, t);
      if NotGradeOf(u)(row) {
        PacketOfKept(init, u, t);
        ReplayTimesSnoc(Filter(NotGradeOf(u), init), row, t);
      }
    }
  }

  lemma LastGradeSnoc(log: seq<Row>, row: Row, t: string)
    ensures PacketBeforeLastGrade(log + [row], t) <==>
            if GradesTurn(row, t) then HasPacket(log, t) else PacketBeforeLastGrade(log, t)
  {
    var grown, n := log + [row], |log|;
    assert grown[..n] == log;
    if GradesTurn(row, t) {
      forall k: nat | k < n ensures !LastGradeAt(grown, k, t) {
        assert GradesTurn(grown[n], t);
      }
      assert LastGradeAt(grown, n, t);
    } else {
      forall k: nat | k < n ensures LastGradeAt(grown, k, t) <==> LastGradeAt(log, k, t) {
        LaterGrades(log, row, k, t);
      }
      forall k: nat | k < n ensures grown[..k] == log[..k] {}
    }
  }

  lemma LaterGrades(log: seq<Row>, row: Row, k: nat, t: string)
    requires k < |log| && !GradesTurn(row, t)
    ensures GradedIn(log + [row], k + 1, |log| + 1, t) <==> GradedIn(log, k + 1, |log|, t)
  {
    var grown := log + [row];
    if GradedIn(grown, k + 1, |log| + 1, t) {
      var j: nat :| k + 1 <= j < |log| + 1 && GradesTurn(grown[j], t);
      assert grown[j] == log[j];
    }
    if GradedIn(log, k + 1, |log|, t) {
      var j: nat :| k + 1 <= j < |log| && GradesTurn(log[j], t);
      assert grown[j] == log[j];
    }
  }

  /** The replay applies a grade of the turn once if a packet precedes its last grade, and never otherwise. */
  lemma {:induction false} TimesInReplay(log: seq<Row>, t: string)
    ensures Times(ReplayCredits(CreditEvents(log)), t) == if PacketBeforeLastGrade(log, t) then 1 else 0
    decreases |log|
  {
    if log != [] {
      var init, row := log[..|log| - 1], log[|log| - 1];
      var before := CreditEvents(init);
      assert log == init + [row];
      TimesInReplay(init, t);
      LastGradeSnoc(init, row, t);
      match row
      case Malformed(_) =>
      case PacketRow(_, _) => ReplayTimesSnoc(before, row, t);
      case OutcomeRow(_, u, _) => RegradedReplay(init, before, row, t);
    }
  }

  lemma RegradedReplay(init: seq<Row>, before: seq<Row>, row: Row, t: string)
    requires row.OutcomeRow? && before == CreditEvents(init)
    ensures Times(ReplayCredits(Filter(NotGradeOf(row.turnId), before) + [row]), t)
            == if row.turnId == t then (if HasPacket(init, t) then 1 else 0) else Times(ReplayCredits(before), t)
  {
    var kept := Filter(NotGradeOf(row.turnId), before);
    ReplayTimesSnoc(kept, row, t);
    if row.turnId == t {
      UngradedReplay(kept, t);
      PacketOfKept(before, t, t);
      PacketOfEvents(init, t);
      PacketOfIff(init, t);
    } else {
      ReplayWithoutOther(before, row.turnId, t);
    }
  }

  // ---------------------------------------------------------------------------
  // When they part
  // ---------------------------------------------------------------------------

  /** A packet before the last grade makes the night that reads this grade a crediting one. */
  lemma LastGradeIsCredited(log: seq<Row>, lens: seq<nat>, t: string)
    requires GrowingPrefixes(lens, |log|) && PacketBeforeLastGrade(log[..From(lens, |lens|)], t)
    ensures CreditingNights(log, lens, t) != {}
  {
    var read := log[..From(lens, |lens|)];
    var k: nat :| k < |read| && LastGradeAt(read, k, t) && HasPacket(read[..k], t);
    var i := NightOf(lens, k);
    assert log[k] == read[k] && GradedIn(log, From(lens, i), lens[i], t);
    var row :| row in read[..k] && PacketFor(row, t);
    var j :| 0 <= j < k && read[..k][j] == row;
    assert log[..lens[i]][j] == row;
    assert i in CreditingNights(log, lens, t);
  }

  /** The night whose window holds this position. */
  lemma {:induction false} NightOf(lens: seq<nat>, k: nat) returns (i: nat)
    requires k < From(lens, |lens|) && forall a, b | 0 <= a < b < |lens| :: lens[a] <= lens[b]
    ensures i < |lens| && From(lens, i) <= k < lens[i]
    decreases |lens|
  {
    var last := |lens| - 1;
    var init := lens[..last];
    assert From(init, last) == From(lens, last);
    if k >= From(lens, last) {
      i := last;
    } else {
      i := NightOf(init, k);
      assert From(init, i) == From(lens, i) && init[i] == lens[i];
    }
  }

  /**
   * Nights and replay apply a turn's grade equally often exactly unless two nights credit the turn,
   * or one does although no packet precedes the last grade.
   */
  lemma NightsAndReplayPart(log: seq<Row>, lens: seq<nat>, t: string)
    requires SeqRises(log) && PositiveSeqs(log) && GrowingPrefixes(lens, |log|)
    ensures var read := log[..From(lens, |lens|)]; var nights := |CreditingNights(log, lens, t)|;
            Times(RunCredits(log, lens), t) != Times(ReplayCredits(CreditEvents(read)), t) <==>
            nights >= 2 || (nights == 1 && !PacketBeforeLastGrade(read, t))
  {
    var read := log[..From(lens, |lens|)];
    TimesOverNights(log, lens, t);
    TimesInReplay(read, t);
    if PacketBeforeLastGrade(read, t) {
      LastGradeIsCredited(log, lens, t);
    }
  }
}
