/**
 * The append-only line store at the level of its file texts: how a text splits into complete
 * lines, what a read with `since` yields, and what a torn tail does to the next append.
 */
module Jsonl {
  import opened Orders

  // ---------------------------------------------------------------------------
  // text.split('\n')
  // ---------------------------------------------------------------------------

  /** The terminated lines of a text and the piece after the last newline. */
  datatype Pieces = Pieces(lines: seq<string>, rest: string)

  function Scan(text: string): Pieces
    decreases |text|
  {
    if text == "" then Pieces([], "")
    else
      var p, c := Scan(text[..|text| - 1]), text[|text| - 1];
      if c == '\n' then Pieces(p.lines + [p.rest], "") else Pieces(p.lines, p.rest + [c])
  }

  function Split(text: string): seq<string> {
    Scan(text).lines + [Scan(text).rest]
  }

  predicate EndsWithNewline(text: string) {
    text != "" && text[|text| - 1] == '\n'
  }

  function NotEmpty(line: string): bool {
    line != ""
  }

  /** The lines a read considers: a final piece without newline is a crash tail and is dropped, blanks are skipped. */
  function CompleteLines(text: string): seq<string> {
    var pieces := Split(text);
    Filter(NotEmpty, if EndsWithNewline(text) then pieces else pieces[..|pieces| - 1])
  }

  lemma CompleteLinesAreScanned(text: string)
    ensures CompleteLines(text) == Filter(NotEmpty, Scan(text).lines)
  {
    var p := Scan(text);
    if EndsWithNewline(text) {
      FilterAppend(NotEmpty, p.lines, [""]);
    } else {
      assert (p.lines + [p.rest])[..|p.lines|] == p.lines;
    }
  }

  lemma {:induction false} ScanFragment(text: string, fragment: string)
    requires '\n' !in fragment
    ensures Scan(text + fragment) == Pieces(Scan(text).lines, Scan(text).rest + fragment)
    decreases |fragment|
  {
    if fragment == "" {
      assert text + fragment == text;
    } else {
      var init, c := fragment[..|fragment| - 1], fragment[|fragment| - 1];
      assert (text + fragment)[..|text + fragment| - 1] == text + init;
      ScanFragment(text, init);
      assert init + [c] == fragment;
    }
  }

  lemma ScanLine(text: string, line: string)
    requires '\n' !in line
    ensures Scan(text + line + "\n") == Pieces(Scan(text).lines + [Scan(text).rest + line], "")
  {
    ScanFragment(text, line);
    assert (text + line + "\n")[..|text + line|] == text + line;
  }

  /** A line appended to a clean text is read as itself; to a torn one, as one line with the fragment. */
  lemma AppendedLine(text: string, line: string)
    requires '\n' !in line && line != ""
    ensures CompleteLines(text + line + "\n") == CompleteLines(text) + [Scan(text).rest + line]
  {
    CompleteLinesAreScanned(text);
    CompleteLinesAreScanned(text + line + "\n");
    ScanLine(text, line);
    FilterAppend(NotEmpty, Scan(text).lines, [Scan(text).rest + line]);
  }

  lemma AppendedFragment(text: string, fragment: string)
    requires '\n' !in fragment
    ensures CompleteLines(text + fragment) == CompleteLines(text)
  {
    CompleteLinesAreScanned(text);
    CompleteLinesAreScanned(text + fragment);
    ScanFragment(text, fragment);
  }

  // ---------------------------------------------------------------------------
  // repairTornTail
  // ---------------------------------------------------------------------------

  /** text.lastIndexOf('\n') + 1 */
  function AfterLastNewline(text: string): (n: nat)
    ensures n <= |text|
    decreases |text|
  {
    if text == "" then 0
    else if text[|text| - 1] == '\n' then |text|
    else AfterLastNewline(text[..|text| - 1])
  }

  function Repair(text: string): string {
    if EndsWithNewline(text) then text else text[..AfterLastNewline(text)]
  }

  /** The repair cuts exactly the piece after the last newline: no complete line is lost, none is torn. */
  lemma {:induction false} RepairKeepsLines(text: string)
    ensures Scan(Repair(text)) == Pieces(Scan(text).lines, "")
    ensures CompleteLines(Repair(text)) == CompleteLines(text)
    decreases |text|
  {
    if text != "" && !EndsWithNewline(text) {
      var init := text[..|text| - 1];
      RepairKeepsLines(init);
      assert Repair(text) == Repair(init) by {
        assert text[..AfterLastNewline(text)] == init[..AfterLastNewline(init)];
        if EndsWithNewline(init) { assert init[..|init|] == init; }
      }
    }
    CompleteLinesAreScanned(text);
    CompleteLinesAreScanned(Repair(text));
  }

  // ---------------------------------------------------------------------------
  // read({ since })
  // ---------------------------------------------------------------------------

  function AllLines(files: seq<string>): seq<string>
    decreases |files|
  {
    if files == [] then [] else AllLines(files[..|files| - 1]) + CompleteLines(files[|files| - 1])
  }

  function ParseAll<T>(parse: string -> Option<T>, lines: seq<string>): seq<T>
    decreases |lines|
  {
    if lines == [] then []
    else
      var row := parse(lines[|lines| - 1]);
      ParseAll(parse, lines[..|lines| - 1]) + (if row.Some? then [row.value] else [])
  }

  lemma {:induction false} ParseAppend<T>(parse: string -> Option<T>, a: seq<string>, b: seq<string>)
    ensures ParseAll(parse, a + b) == ParseAll(parse, a) + ParseAll(parse, b)
    decreases |b|
  {
    if b == [] {
      assert a + b == a;
    } else {
      assert (a + b)[..|a + b| - 1] == a + b[..|b| - 1];
      ParseAppend(parse, a, b[..|b| - 1]);
    }
  }

  lemma ReadNext<T>(parse: string -> Option<T>, lines: seq<string>, since: nat, j: nat)
    requires j < |lines|
    ensures ParseAll(parse, Drop(lines[..j + 1], since)) ==
            ParseAll(parse, Drop(lines[..j], since))
            + (if j >= since && parse(lines[j]).Some? then [parse(lines[j]).value] else [])
  {
    if j >= since {
      var kept := Drop(lines[..j + 1], since);
      assert kept[..|kept| - 1] == Drop(lines[..j], since) && kept[|kept| - 1] == lines[j];
    }
  }

  /** The reader's loop over the lines of one file: `toSkip` counts lines, malformed ones included. */
  method ReadLines<T>(parse: string -> Option<T>, lines: seq<string>, since: nat) returns (rows: seq<T>, toSkip: nat)
    ensures rows == ParseAll(parse, Drop(lines, since))
    ensures toSkip == if |lines| <= since then since - |lines| else 0
  {
    rows, toSkip := [], since;
    for j := 0 to |lines|
      invariant toSkip == if j <= since then since - j else 0
      invariant rows == ParseAll(parse, Drop(lines[..j], since))
    {
      ReadNext(parse, lines, since, j);
      if toSkip > 0 {
        toSkip := toSkip - 1;
      } else {
        var row := parse(lines[j]);
        if row.Some? {
          rows := rows + [row.value];
        }
      }
    }
    assert lines[..|lines|] == lines;
  }

  lemma DropAcross(a: seq<string>, b: seq<string>, n: nat)
    ensures Drop(a + b, n) == Drop(a, n) + Drop(b, if n <= |a| then 0 else n - |a|)
  {
  }

  lemma ReadOn<T>(parse: string -> Option<T>, before: seq<string>, lines: seq<string>, since: nat)
    ensures var left := if |before| <= since then since - |before| else 0;
            ParseAll(parse, Drop(before + lines, since))
            == ParseAll(parse, Drop(before, since)) + ParseAll(parse, Drop(lines, left))
  {
    var left := if |before| <= since then since - |before| else 0;
    DropAcross(before, lines, since);
    ParseAppend(parse, Drop(before, since), Drop(lines, left));
  }

  lemma FilesNext(files: seq<string>, i: nat)
    requires i < |files|
    ensures AllLines(files[..i + 1]) == AllLines(files[..i]) + CompleteLines(files[i])
  {
    assert files[..i + 1][..i] == files[..i];
  }

  /** All rows in file order after the first `since` lines. */
  method Read<T>(parse: string -> Option<T>, files: seq<string>, since: nat) returns (rows: seq<T>)
    ensures rows == ParseAll(parse, Drop(AllLines(files), since))
  {
    rows := [];
    var toSkip := since;
    ghost var before: seq<string> := [];
    for i := 0 to |files|
      invariant before == AllLines(files[..i])
      invariant toSkip == if |before| <= since then since - |before| else 0
      invariant rows == ParseAll(parse, Drop(before, since))
    {
      FilesNext(files, i);
      var lines := CompleteLines(files[i]);
      ReadOn(parse, before, lines, since);
      var more;
      more, toSkip := ReadLines(parse, lines, toSkip);
      rows := rows + more;
      before := before + lines;
    }
    assert files[..|files|] == files;
  }

  predicate Parses<T>(parse: string -> Option<T>, line: string) {
    parse(line).Some?
  }

  /** A malformed line with a readable one after it. */
  ghost predicate MalformedInterior<T>(parse: string -> Option<T>, lines: seq<string>) {
    exists b, g :: 0 <= b < g < |lines| && !Parses(parse, lines[b]) && Parses(parse, lines[g])
  }

  lemma {:induction false} AllParse<T>(parse: string -> Option<T>, lines: seq<string>)
    requires forall l | l in lines :: Parses(parse, l)
    ensures |ParseAll(parse, lines)| == |lines|
    decreases |lines|
  {
    if lines != [] {
      assert Parses(parse, lines[|lines| - 1]);
      AllParse(parse, lines[..|lines| - 1]);
    }
  }

  lemma {:induction false} NoneParse<T>(parse: string -> Option<T>, lines: seq<string>)
    requires forall l | l in lines :: !Parses(parse, l)
    ensures ParseAll(parse, lines) == []
    decreases |lines|
  {
    if lines != [] {
      assert !Parses(parse, lines[|lines| - 1]);
      NoneParse(parse, lines[..|lines| - 1]);
    }
  }

  lemma ParsedPrefix<T>(parse: string -> Option<T>, lines: seq<string>, n: nat)
    requires n <= |lines|
    ensures ParseAll(parse, lines) == ParseAll(parse, lines[..n]) + ParseAll(parse, lines[n..])
  {
    assert lines == lines[..n] + lines[n..];
    ParseAppend(parse, lines[..n], lines[n..]);
  }

  lemma FirstMalformed<T>(parse: string -> Option<T>, lines: seq<string>) returns (b: nat)
    ensures b <= |lines| && (forall i | 0 <= i < b :: Parses(parse, lines[i]))
    ensures b < |lines| ==> !Parses(parse, lines[b])
  {
    b := 0;
    while b < |lines| && Parses(parse, lines[b])
      invariant b <= |lines| && forall i | 0 <= i < b :: Parses(parse, lines[i])
    {
      b := b + 1;
    }
  }

  /** `since` counts lines while its callers pass a count of rows: every tail read is exact. */
  ghost predicate TailsExact<T(!new)>(parse: string -> Option<T>, lines: seq<string>) {
    forall n: nat :: ParseAll(parse, Drop(lines, n)) == Drop(ParseAll(parse, lines), n)
  }

  lemma TailOfClean<T>(parse: string -> Option<T>, lines: seq<string>, n: nat)
    requires !MalformedInterior(parse, lines)
    ensures ParseAll(parse, Drop(lines, n)) == Drop(ParseAll(parse, lines), n)
  {
    var b := FirstMalformed(parse, lines);
    forall i | b <= i < |lines| ensures !Parses(parse, lines[i]) {}
    NoneParse(parse, lines[b..]);
    AllParse(parse, lines[..b]);
    ParsedPrefix(parse, lines, b);
    if n <= b {
      ParsedPrefix(parse, lines, n);
      AllParse(parse, lines[..n]);
    } else {
      NoneParse(parse, Drop(lines, n));
    }
  }

  lemma SomeParse<T>(parse: string -> Option<T>, lines: seq<string>, g: nat)
    requires g < |lines| && Parses(parse, lines[g])
    ensures ParseAll(parse, lines) != []
  {
    ParsedPrefix(parse, lines, g);
    ParsedPrefix(parse, lines[g..], 1);
    AllParse(parse, lines[g..][..1]);
  }

  lemma AfterMalformed<T>(parse: string -> Option<T>, lines: seq<string>, b: nat)
    requires b < |lines| && (forall i | 0 <= i < b :: Parses(parse, lines[i])) && !Parses(parse, lines[b])
    ensures |ParseAll(parse, lines)| == b + |ParseAll(parse, lines[b + 1..])|
  {
    AllParse(parse, lines[..b]);
    ParsedPrefix(parse, lines, b);
    NoneParse(parse, [lines[b]]);
    assert lines[b..] == [lines[b]] + lines[b + 1..];
    ParseAppend(parse, [lines[b]], lines[b + 1..]);
  }

  lemma TailOfInterior<T>(parse: string -> Option<T>, lines: seq<string>) returns (n: nat)
    requires MalformedInterior(parse, lines)
    ensures ParseAll(parse, Drop(lines, n)) != Drop(ParseAll(parse, lines), n)
  {
    var b := FirstMalformed(parse, lines);
    var x, g :| 0 <= x < g < |lines| && !Parses(parse, lines[x]) && Parses(parse, lines[g]);
    n := b + 1;
    AfterMalformed(parse, lines, b);
    SomeParse(parse, lines[n..], g - n);
  }

  /** Reading from a row count is exact for every count precisely when no malformed line has a readable one after it. */
  lemma TailsExactIffNoMalformedInterior<T(!new)>(parse: string -> Option<T>, lines: seq<string>)
    ensures TailsExact(parse, lines) <==> !MalformedInterior(parse, lines)
  {
    if MalformedInterior(parse, lines) {
      var n := TailOfInterior(parse, lines);
    } else {
      forall n: nat { TailOfClean(parse, lines, n); }
    }
  }
}
