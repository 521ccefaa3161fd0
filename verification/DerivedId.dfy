/**
 * Content identity of a generated file. The id line is masked before hashing, so stamping an id
 * must not change the text that is hashed: the split finds the same fences, the same line is
 * masked, and the newline normalisation has nothing left to do.
 */
module DerivedId {
  import opened Orders

  const DERIVED_ID_PLACEHOLDER := "sha256:pending"

  // ---------------------------------------------------------------------------
  // Newlines
  // ---------------------------------------------------------------------------

  /** replaceAll('\r\n', '\n') */
  function Lf(s: string): string {
    if s == "" then ""
    else if |s| >= 2 && s[0] == '\r' && s[1] == '\n' then "\n" + Lf(s[2..])
    else [s[0]] + Lf(s[1..])
  }

  predicate CrLfAt(s: string, i: int) {
    0 <= i < |s| - 1 && s[i] == '\r' && s[i + 1] == '\n'
  }

  ghost predicate HasCrLf(s: string) {
    exists i :: CrLfAt(s, i)
  }

  function Returns(s: string): nat {
    multiset(s)['\r']
  }

  lemma CrLfFirst(s: string)
    requires s != ""
    ensures HasCrLf(s) <==> CrLfAt(s, 0) || HasCrLf(s[1..])
  {
    if i :| CrLfAt(s, i) && i > 0 {
      assert CrLfAt(s[1..], i - 1);
    }
    if i :| CrLfAt(s[1..], i) {
      assert CrLfAt(s, i + 1);
    }
  }

  lemma ReturnsFirst(s: string)
    requires s != ""
    ensures Returns(s) == (if s[0] == '\r' then 1 else 0) + Returns(s[1..])
  {
    assert s == [s[0]] + s[1..];
  }

  /** Normalising takes a carriage return away exactly when there is a CR LF pair. */
  lemma {:induction false} LfCounts(s: string)
    ensures !HasCrLf(s) ==> Lf(s) == s
    ensures Returns(Lf(s)) <= Returns(s)
    ensures HasCrLf(s) ==> Returns(Lf(s)) < Returns(s)
  {
    if s != "" {
      CrLfFirst(s);
      ReturnsFirst(s);
      if CrLfAt(s, 0) {
        LfCounts(s[2..]);
        PairCounts(s);
      } else {
        LfCounts(s[1..]);
        CharCounts(s);
      }
    }
  }

  lemma CharCounts(s: string)
    requires s != "" && !CrLfAt(s, 0)
    ensures Lf(s) == [s[0]] + Lf(s[1..]) && s == [s[0]] + s[1..]
    ensures Returns(Lf(s)) == (if s[0] == '\r' then 1 else 0) + Returns(Lf(s[1..]))
  {
    ReturnsFirst(Lf(s));
    assert Lf(s)[1..] == Lf(s[1..]);
  }

  lemma PairCounts(s: string)
    requires CrLfAt(s, 0)
    ensures Lf(s) == "\n" + Lf(s[2..]) && Returns(Lf(s)) == Returns(Lf(s[2..])) && Returns(s) == Returns(s[2..]) + 1
  {
    ReturnsFirst(s);
    ReturnsFirst(s[1..]);
    assert s[1..][1..] == s[2..];
    assert Lf(s) == "\n" + Lf(s[2..]);
    ReturnsFirst(Lf(s));
    assert Lf(s)[1..] == Lf(s[2..]);
  }

  /** The callers normalise, and the split normalises again. */
  function Normal(raw: string): string {
    Lf(Lf(raw))
  }

  // ---------------------------------------------------------------------------
  // splitExemplarFile
  // ---------------------------------------------------------------------------

  datatype Parts = Parts(frontmatter: string, body: string)

  const OPEN := "---\n"

  /** A closing fence `k` characters into the text after the opening one. */
  predicate ClosesAt(rest: string, k: nat)
    requires k <= |rest|
  {
    "\n---" <= rest[k..] && (|rest| == k + 4 || rest[k + 4] == '\n')
  }

  /** The nearest closing fence at `k` or later: the lazy group of the pattern. */
  function FindClose(rest: string, k: nat): (at: Option<nat>)
    requires k <= |rest|
    ensures at.Some? ==> k <= at.value <= |rest| && ClosesAt(rest, at.value)
    ensures at.Some? ==> forall j | k <= j < at.value :: !ClosesAt(rest, j)
    ensures at.None? ==> forall j | k <= j <= |rest| :: !ClosesAt(rest, j)
    decreases |rest| - k
  {
    if ClosesAt(rest, k) then Some(k)
    else if k == |rest| then None
    else FindClose(rest, k + 1)
  }

  /** Fenced frontmatter and body, or none when the fences are absent. */
  function Split(text: string): Option<Parts> {
    if !(OPEN <= text) then None
    else
      var rest := text[4..];
      match FindClose(rest, 0)
      case None => None
      case Some(k) => Some(Parts(rest[..k], if |rest| == k + 4 then "" else rest[k + 5..]))
  }

  function Join(frontmatter: string, body: string): string {
    OPEN + frontmatter + "\n---\n" + body
  }

  /** Nothing in the frontmatter, not even with the fence behind it, reads as a closing fence. */
  ghost predicate NoFence(f: string) {
    forall k: nat | k < |f| :: !ClosesAt(f + "\n---", k)
  }

  lemma FenceIsLocal(f: string, tail: string, k: nat)
    requires k < |f| && (tail == "" || tail[0] == '\n')
    ensures ClosesAt(f + "\n---" + tail, k) <==> ClosesAt(f + "\n---", k)
  {
    var whole, part := f + "\n---" + tail, f + "\n---";
    assert whole[..|part|] == part;
    assert forall j | 0 <= j < |part| :: whole[j] == part[j];
    assert "\n---" <= whole[k..] <==> "\n---" <= part[k..] by {
      assert whole[k..][..4] == part[k..][..4];
    }
  }

  /** A text with a closing fence, taken apart there. */
  lemma TakenApart(text: string, k: nat)
    requires OPEN <= text && k <= |text| - 4 && ClosesAt(text[4..], k)
    ensures var rest := text[4..]; var f := rest[..k];
            if |rest| == k + 4 then rest == f + "\n---" && text + "\n" == Join(f, "")
            else rest == f + "\n---\n" + rest[k + 5..] && text == Join(f, rest[k + 5..])
  {
    var rest := text[4..];
    var f := rest[..k];
    assert text == OPEN + rest;
    assert rest[k..][..4] == "\n---";
    assert rest == f + "\n---" + rest[k + 4..];
    if |rest| > k + 4 {
      assert rest[k + 4..] == "\n" + rest[k + 5..];
    } else {
      assert rest[k + 4..] == "";
    }
  }

  /** What a split tells of the text. */
  lemma SplitParts(text: string)
    requires Split(text).Some?
    ensures var p := Split(text).value;
            && NoFence(p.frontmatter)
            && (text == Join(p.frontmatter, p.body) || (p.body == "" && text + "\n" == Join(p.frontmatter, "")))
  {
    var rest := text[4..];
    var k := FindClose(rest, 0).value;
    var f := rest[..k];
    TakenApart(text, k);
    var tail := if |rest| == k + 4 then "" else "\n" + rest[k + 5..];
    assert rest == f + "\n---" + tail;
    assert NoFence(f) by {
      forall j: nat | j < |f| ensures !ClosesAt(f + "\n---", j) {
        FenceIsLocal(f, tail, j);
      }
    }
  }

  /** Joined parts split back into themselves. */
  lemma SplitJoin(f: string, body: string)
    requires NoFence(f)
    ensures Split(Join(f, body)) == Some(Parts(f, body))
  {
    var text := Join(f, body);
    var rest, tail := text[4..], "\n" + body;
    assert text[..4] == OPEN && rest == f + "\n---" + tail;
    assert rest[|f|..] == "\n---" + tail;
    assert ClosesAt(rest, |f|);
    forall j: nat | j < |f| ensures !ClosesAt(rest, j) {
      FenceIsLocal(f, tail, j);
    }
    assert FindClose(rest, 0) == Some(|f|);
    assert rest[..|f|] == f && rest[|f| + 5..] == body;
  }

  // ---------------------------------------------------------------------------
  // The id line
  // ---------------------------------------------------------------------------

  predicate IsTerminator(c: char) {
    c == '\n' || c == '\r' || c == '\U{2028}' || c == '\U{2029}'
  }

  /** `^id:` in multiline mode. */
  predicate IdStartsAt(s: string, p: nat)
    requires p <= |s|
  {
    (p == 0 || IsTerminator(s[p - 1])) && "id:" <= s[p..]
  }

  function FindId(s: string, p: nat): (at: Option<nat>)
    requires p <= |s|
    ensures at.Some? ==> p <= at.value <= |s| && IdStartsAt(s, at.value)
    ensures at.Some? ==> forall j | p <= j < at.value :: !IdStartsAt(s, j)
    ensures at.None? ==> forall j | p <= j <= |s| :: !IdStartsAt(s, j)
    decreases |s| - p
  {
    if IdStartsAt(s, p) then Some(p) else if p == |s| then None else FindId(s, p + 1)
  }

  /** The end of the line: the next line feed, or the end of the text. */
  function LineEnd(s: string, p: nat): (q: nat)
    requires p <= |s|
    ensures p <= q <= |s| && (q == |s| || s[q] == '\n')
    ensures forall j | p <= j < q :: s[j] != '\n'
    decreases |s| - p
  {
    if p == |s| || s[p] == '\n' then p else LineEnd(s, p + 1)
  }

  /** The first id line replaced; a frontmatter without one stays as it is. */
  function Mask(f: string, id: string): string {
    match FindId(f, 0)
    case None => f
    case Some(p) => f[..p] + "id: " + id + f[LineEnd(f, p)..]
  }

  predicate OneLine(id: string) {
    '\n' !in id && '\r' !in id && '$' !in id
  }

  lemma IdSame(f: string, m: string, n: nat, j: nat)
    requires j + 3 <= n <= |f| && n <= |m| && m[..n] == f[..n]
    ensures IdStartsAt(m, j) <==> IdStartsAt(f, j)
  {
    assert m[j..][..3] == m[..n][j..j + 3] && f[j..][..3] == f[..n][j..j + 3];
    assert j > 0 ==> m[j - 1] == m[..n][j - 1] && f[j - 1] == f[..n][j - 1];
  }

  lemma FindIdIs(s: string, p: nat)
    requires p <= |s| && IdStartsAt(s, p) && forall j: nat | j < p :: !IdStartsAt(s, j)
    ensures FindId(s, 0) == Some(p)
  {
  }

  lemma FirstIdKept(f: string, m: string, p: nat)
    requires FindId(f, 0) == Some(p) && p + 3 <= |f| && p + 3 <= |m| && m[..p + 3] == f[..p + 3]
    ensures FindId(m, 0) == Some(p)
  {
    forall j: nat | j <= p ensures IdStartsAt(m, j) <==> IdStartsAt(f, j) {
      IdSame(f, m, p + 3, j);
    }
    FindIdIs(m, p);
  }

  lemma LineReplaced(before: string, line: string, rest: string, m: string)
    requires m == before + line + rest && '\n' !in line && (rest == "" || rest[0] == '\n')
    ensures LineEnd(m, |before|) == |before| + |line|
    ensures m[|before|..|before| + |line|] == line && m[|before| + |line|..] == rest
  {
    var p := |before|;
    forall j | p <= j < p + |line| ensures m[j] != '\n' {
      assert m[j] == line[j - p];
    }
    LineEndIs(m, p, p + |line|);
  }

  lemma MaskedPrefix(f: string, line: string, rest: string, p: nat)
    requires p <= |f| && "id:" <= f[p..] && "id:" <= line
    ensures var m := f[..p] + line + rest;
            p + 3 <= |f| && p + 3 <= |m| && m[..p + 3] == f[..p + 3]
  {
    var m := f[..p] + line + rest;
    assert f[p..][..3] == "id:" && line[..3] == "id:";
    assert f[..p + 3] == f[..p] + f[p..][..3];
    assert m[..p + 3] == f[..p] + line[..3];
  }

  /** The masked line starts where the first one did and ends before the same line feed. */
  lemma MaskedLine(f: string, id: string)
    requires OneLine(id) && FindId(f, 0).Some?
    ensures var p := FindId(f, 0).value; var m := Mask(f, id);
            && p + 3 <= |f| && p + 3 <= |m| && m[..p + 3] == f[..p + 3]
            && FindId(m, 0) == Some(p) && LineEnd(m, p) == p + 4 + |id|
            && m[p..p + 4 + |id|] == "id: " + id && m[p + 4 + |id|..] == f[LineEnd(f, p)..]
  {
    var p, m := FindId(f, 0).value, Mask(f, id);
    var line, rest := "id: " + id, f[LineEnd(f, p)..];
    assert m == f[..p] + line + rest by { MaskJoined(f, id); }
    MaskedPrefix(f, line, rest, p);
    FirstIdKept(f, m, p);
    LineReplaced(f[..p], line, rest, m);
  }

  lemma MaskJoined(f: string, id: string)
    requires FindId(f, 0).Some?
    ensures var p := FindId(f, 0).value; Mask(f, id) == f[..p] + ("id: " + id) + f[LineEnd(f, p)..]
  {
  }

  lemma LineEndIs(s: string, p: nat, q: nat)
    requires p <= q <= |s| && (q == |s| || s[q] == '\n')
    requires forall j | p <= j < q :: s[j] != '\n'
    ensures LineEnd(s, p) == q
  {
  }

  /** Masking twice is masking once. */
  lemma MaskTwice(f: string, id: string, other: string)
    requires OneLine(id)
    ensures Mask(Mask(f, id), other) == Mask(f, other)
  {
    if FindId(f, 0).Some? {
      var p, m := FindId(f, 0).value, Mask(f, id);
      MaskedLine(f, id);
      assert m[..p] == m[..p + 3][..p] && f[..p] == f[..p + 3][..p];
    }
  }

  /** A fence cannot appear where the id line was rewritten. */
  lemma MaskKeepsFences(f: string, id: string)
    requires NoFence(f) && OneLine(id)
    ensures NoFence(Mask(f, id))
  {
    if FindId(f, 0).Some? {
      var p := FindId(f, 0).value;
      var q, m, line := LineEnd(f, p), Mask(f, id), "id: " + id;
      MaskedLine(f, id);
      forall k: nat | k < |m| ensures !ClosesAt(m + "\n---", k) {
        if k < p {
          FenceBeforeLine(f, m, p, k);
        } else if k < p + |line| {
          assert m[k] == m[p..p + |line|][k - p];
          assert (m + "\n---")[k..][0] == m[k];
        } else {
          FenceAfterLine(f, m, q, p + |line|, k);
        }
      }
    }
  }

  lemma FenceBeforeLine(f: string, m: string, p: nat, k: nat)
    requires k < p && p + 3 <= |f| && p + 3 <= |m| && m[..p + 3] == f[..p + 3] && "id:" <= f[p..]
    ensures ClosesAt(m + "\n---", k) ==> ClosesAt(f + "\n---", k)
  {
    var a, b := f + "\n---", m + "\n---";
    assert forall j | 0 <= j < p + 3 :: a[j] == f[..p + 3][j] && b[j] == m[..p + 3][j];
    assert f[p] == f[p..][0] == 'i';
    if ClosesAt(b, k) {
      assert b[k..][..4] == "\n---";
      assert forall j | k <= j < k + 4 :: b[j] == "\n---"[j - k];
      assert b[p] == 'i';
      assert k + 4 < p;
      assert a[k..][..4] == b[k..][..4];
    }
  }

  lemma FenceAfterLine(f: string, m: string, q: nat, r: nat, k: nat)
    requires q <= |f| && r <= k < |m| && m[r..] == f[q..]
    ensures k - r + q < |f|
    ensures ClosesAt(m + "\n---", k) ==> ClosesAt(f + "\n---", k - r + q)
  {
    var a, b, j := f + "\n---", m + "\n---", k - r + q;
    assert |m[r..]| == |f[q..]|;
    assert forall i | 0 <= i < |b| - r :: b[r + i] == (m[r..] + "\n---")[i] && a[q + i] == (f[q..] + "\n---")[i];
    assert b[k..] == a[j..];
  }

  // ---------------------------------------------------------------------------
  // hashableText, withFileId, derivedFileId
  // ---------------------------------------------------------------------------

  /** The text with this id on its id line; none stands for the no-frontmatter error. */
  function WithFileId(raw: string, id: string): Option<string> {
    match Split(Normal(raw))
    case None => None
    case Some(p) => Some(Join(Mask(p.frontmatter, id), p.body))
  }

  function HashableText(raw: string): Option<string> {
    WithFileId(raw, DERIVED_ID_PLACEHOLDER)
  }

  function DerivedFileId(raw: string, contentHash: string -> string): Option<string> {
    match HashableText(raw)
    case None => None
    case Some(text) => Some(contentHash(text))
  }

  /** A text joined around its id line. */
  lemma JoinedAround(f: string, body: string, id: string)
    requires FindId(f, 0).Some?
    ensures var p := FindId(f, 0).value;
            Join(Mask(f, id), body) == OPEN + f[..p] + ("id: " + id) + (f[LineEnd(f, p)..] + "\n---\n" + body)
  {
    var p := FindId(f, 0).value;
    Regrouped(OPEN, f[..p], "id: ", id, f[LineEnd(f, p)..], "\n---\n", body);
  }

  lemma Regrouped(a: string, b: string, c: string, d: string, e: string, f: string, g: string)
    ensures a + (b + c + d + e) + f + g == a + b + (c + d) + (e + f + g)
  {
  }

  /** A text's CR LF pairs and carriage returns do not depend on the one-line id it carries. */
  lemma SameReturns(f: string, body: string, id: string, other: string)
    requires OneLine(id) && OneLine(other)
    ensures HasCrLf(Join(Mask(f, id), body)) <==> HasCrLf(Join(Mask(f, other), body))
    ensures Returns(Join(Mask(f, id), body)) == Returns(Join(Mask(f, other), body))
  {
    if FindId(f, 0).Some? {
      var p := FindId(f, 0).value;
      var before, rest := OPEN + f[..p], f[LineEnd(f, p)..] + "\n---\n" + body;
      JoinedAround(f, body, id);
      JoinedAround(f, body, other);
      CrLfAround(before, "id: " + id, rest);
      CrLfAround(before, "id: " + other, rest);
    }
  }

  lemma CrLfAround(before: string, line: string, rest: string)
    requires line != "" && '\r' !in line && '\n' !in line
    ensures HasCrLf(before + line + rest) <==> HasCrLf(before) || HasCrLf(rest)
    ensures Returns(before + line + rest) == Returns(before) + Returns(rest)
  {
    var all, at := before + line + rest, |before| + |line|;
    assert '\r' !in multiset(line);
    assert forall j | |before| <= j < at :: all[j] == line[j - |before|];
    if HasCrLf(before) {
      var i :| CrLfAt(before, i);
      assert CrLfAt(all, i);
    }
    if HasCrLf(rest) {
      var i :| CrLfAt(rest, i);
      assert CrLfAt(all, at + i);
    }
    if HasCrLf(all) {
      var i :| CrLfAt(all, i);
      if i < |before| {
        assert i + 1 < |before|;
        assert CrLfAt(before, i);
      } else {
        assert i >= at;
        assert CrLfAt(rest, i - at);
      }
    }
  }

  lemma MaskLosesReturns(f: string, body: string, id: string)
    requires OneLine(id)
    ensures Returns(Join(Mask(f, id), body)) <= Returns(Join(f, body))
  {
    if FindId(f, 0).Some? {
      var p := FindId(f, 0).value;
      var q := LineEnd(f, p);
      assert f == f[..p] + f[p..q] + f[q..];
      assert '\r' !in multiset("id: " + id);
    }
  }

  lemma PlaceholderIsOneLine()
    ensures OneLine(DERIVED_ID_PLACEHOLDER)
  {
  }

  /** A stamped text without CR LF pairs reads back as stamped: nothing to normalise, same fences, same line. */
  lemma StampReads(f: string, body: string, id: string)
    requires NoFence(f) && OneLine(id) && !HasCrLf(Join(Mask(f, id), body))
    ensures HashableText(Join(Mask(f, id), body)) == Some(Join(Mask(f, DERIVED_ID_PLACEHOLDER), body))
  {
    LfCounts(Join(Mask(f, id), body));
    MaskKeepsFences(f, id);
    SplitJoin(Mask(f, id), body);
    MaskTwice(f, id, DERIVED_ID_PLACEHOLDER);
  }

  lemma JoinedReturns(text: string)
    requires Split(text).Some?
    ensures Returns(Join(Split(text).value.frontmatter, Split(text).value.body)) == Returns(text)
  {
    SplitParts(text);
    assert multiset(text + "\n")['\r'] == multiset(text)['\r'];
  }

  /** With a CR LF pair left in it, a stamped text hashes as a text with fewer carriage returns. */
  lemma StampShrinks(stamped: string)
    requires HasCrLf(stamped) && HashableText(stamped).Some?
    ensures Returns(HashableText(stamped).value) < Returns(stamped)
  {
    LfCounts(stamped);
    LfCounts(Lf(stamped));
    var text := Normal(stamped);
    var p := Split(text).value;
    PlaceholderIsOneLine();
    MaskLosesReturns(p.frontmatter, p.body, DERIVED_ID_PLACEHOLDER);
    JoinedReturns(text);
  }

  /**
   * Stamping a one-line id leaves the hashed text as it was exactly when that text has no CR LF
   * pair in it: two rounds of newline normalisation left none.
   */
  lemma StampKeepsHashableText(raw: string, id: string)
    requires OneLine(id) && HashableText(raw).Some?
    ensures WithFileId(raw, id).Some?
    ensures HashableText(WithFileId(raw, id).value) == HashableText(raw) <==> !HasCrLf(HashableText(raw).value)
  {
    var p := Split(Normal(raw)).value;
    var stamped := Join(Mask(p.frontmatter, id), p.body);
    SplitParts(Normal(raw));
    PlaceholderIsOneLine();
    SameReturns(p.frontmatter, p.body, id, DERIVED_ID_PLACEHOLDER);
    if HasCrLf(stamped) {
      if HashableText(stamped).Some? {
        StampShrinks(stamped);
      }
    } else {
      StampReads(p.frontmatter, p.body, id);
    }
  }

  lemma NoReturns(s: string)
    ensures '\r' !in s <==> Returns(s) == 0
    ensures Returns(s) == 0 ==> !HasCrLf(s)
  {
    assert '\r' in s <==> '\r' in multiset(s);
  }

  /** Text with line feeds only is in no danger. */
  lemma LfOnlyIsSafe(raw: string)
    requires '\r' !in raw && HashableText(raw).Some?
    ensures !HasCrLf(HashableText(raw).value)
  {
    NoReturns(raw);
    LfCounts(raw);
    var p := Split(raw).value;
    PlaceholderIsOneLine();
    MaskLosesReturns(p.frontmatter, p.body, DERIVED_ID_PLACEHOLDER);
    JoinedReturns(raw);
    NoReturns(HashableText(raw).value);
  }

  /** A stamped text splits into its masked frontmatter and its own body. */
  lemma StampSplits(raw: string, id: string)
    requires OneLine(id) && Split(Normal(raw)).Some?
    ensures var p := Split(Normal(raw)).value;
            WithFileId(raw, id).Some? && Split(WithFileId(raw, id).value) == Some(Parts(Mask(p.frontmatter, id), p.body))
  {
    var p := Split(Normal(raw)).value;
    SplitParts(Normal(raw));
    MaskKeepsFences(p.frontmatter, id);
    SplitJoin(Mask(p.frontmatter, id), p.body);
  }

  /** The text of the first id line of a frontmatter. */
  function IdLine(f: string): Option<string> {
    match FindId(f, 0)
    case None => None
    case Some(p) => Some(f[p..LineEnd(f, p)])
  }

  /** The same frontmatter but for what its first id line says. */
  predicate SameButIdLine(f: string, g: string) {
    && FindId(f, 0) == FindId(g, 0)
    && (match FindId(f, 0)
        case None => f == g
        case Some(p) => f[..p] == g[..p] && f[LineEnd(f, p)..] == g[LineEnd(g, p)..])
  }

  /**
   * A text that splits is stamped. What comes back splits again, with the same body and the same
   * lines but the first id line, which reads `id: ` and the id; a frontmatter without an id line
   * stays as it is.
   */
  lemma StampWritesTheId(raw: string, id: string)
    requires OneLine(id)
    ensures WithFileId(raw, id).Some? <==> Split(Normal(raw)).Some?
    ensures WithFileId(raw, id).Some? ==>
              var before, after := Split(Normal(raw)).value, Split(WithFileId(raw, id).value);
              && after.Some? && after.value.body == before.body
              && WithFileId(raw, id).value == "---\n" + after.value.frontmatter + "\n---\n" + after.value.body
              && SameButIdLine(before.frontmatter, after.value.frontmatter)
              && IdLine(after.value.frontmatter) ==
                 if FindId(before.frontmatter, 0).Some? then Some("id: " + id) else None
  {
    if Split(Normal(raw)).Some? {
      var f := Split(Normal(raw)).value.frontmatter;
      StampSplits(raw, id);
      if FindId(f, 0).Some? {
        StampedLine(f, id);
      }
    }
  }

  lemma StampedLine(f: string, id: string)
    requires OneLine(id) && FindId(f, 0).Some?
    ensures SameButIdLine(f, Mask(f, id)) && IdLine(Mask(f, id)) == Some("id: " + id)
  {
    MaskedLine(f, id);
    var p, m := FindId(f, 0).value, Mask(f, id);
    assert m[..p] == m[..p + 3][..p] && f[..p] == f[..p + 3][..p];
  }

  /** Two different ids make two different files, whenever there is a line to write them on. */
  lemma StampTellsIdsApart(raw: string, id: string, other: string)
    requires OneLine(id) && OneLine(other) && id != other
    requires Split(Normal(raw)).Some? && FindId(Split(Normal(raw)).value.frontmatter, 0).Some?
    ensures WithFileId(raw, id) != WithFileId(raw, other)
  {
    StampWritesTheId(raw, id);
    StampWritesTheId(raw, other);
    assert ("id: " + id)[4..] == id && ("id: " + other)[4..] == other;
  }

  /** What is hashed reads the placeholder on its id line, and the text stamped with the file's id reads that id. */
  lemma HashedTextReadsPending(raw: string)
    requires HashableText(raw).Some? && FindId(Split(Normal(raw)).value.frontmatter, 0).Some?
    ensures var after := Split(HashableText(raw).value);
            after.Some? && IdLine(after.value.frontmatter) == Some("id: " + "sha256:pending")
  {
    PlaceholderIsOneLine();
    StampWritesTheId(raw, DERIVED_ID_PLACEHOLDER);
  }

  /** The stamped file's own id is the id stamped into it, and its id line, if it has one, reads it. */
  lemma StampIsFixpoint(raw: string, contentHash: string -> string)
    requires '\r' !in raw && HashableText(raw).Some?
    requires forall text :: OneLine(contentHash(text))
    ensures var id := DerivedFileId(raw, contentHash).value;
            && WithFileId(raw, id).Some? && DerivedFileId(WithFileId(raw, id).value, contentHash) == Some(id)
            && (FindId(Split(Normal(raw)).value.frontmatter, 0).Some? ==>
                var stamped := Split(WithFileId(raw, id).value);
                stamped.Some? && IdLine(stamped.value.frontmatter) == Some("id: " + id))
  {
    StampWritesTheId(raw, DerivedFileId(raw, contentHash).value);
    LfOnlyIsSafe(raw);
    StampKeepsHashableText(raw, DerivedFileId(raw, contentHash).value);
  }

  /** Two texts that hash alike differ on their id lines at most: every other byte is covered. */
  lemma OtherBytesAreCovered(a: string, b: string, id: string)
    requires HashableText(a).Some? && HashableText(a) == HashableText(b)
    ensures WithFileId(a, id) == WithFileId(b, id)
  {
    var p, q := Split(Normal(a)).value, Split(Normal(b)).value;
    SplitParts(Normal(a));
    SplitParts(Normal(b));
    PlaceholderIsOneLine();
    var f, g := Mask(p.frontmatter, DERIVED_ID_PLACEHOLDER), Mask(q.frontmatter, DERIVED_ID_PLACEHOLDER);
    MaskKeepsFences(p.frontmatter, DERIVED_ID_PLACEHOLDER);
    MaskKeepsFences(q.frontmatter, DERIVED_ID_PLACEHOLDER);
    SplitJoin(f, p.body);
    SplitJoin(g, q.body);
    MaskTwice(p.frontmatter, DERIVED_ID_PLACEHOLDER, id);
    MaskTwice(q.frontmatter, DERIVED_ID_PLACEHOLDER, id);
  }

  lemma {:induction false} LfAfter(a: string, t: string)
    requires '\r' !in a
    ensures Lf(a + t) == a + Lf(t)
  {
    if a == "" {
      assert a + t == t;
    } else {
      assert (a + t)[0] == a[0] && (a + t)[1..] == a[1..] + t;
      LfAfter(a[1..], t);
    }
  }

  lemma ThreeReturns()
    ensures Lf("\r\r\r\n") == "\r\r\n" && Lf("\r\r\n") == "\r\n"
  {
    assert "\r\n"[2..] == "" && Lf("\r\n") == "\n";
    assert "\r\r\n"[1..] == "\r\n" && "\r\r\r\n"[1..] == "\r\r\n";
  }

  /** A file whose body ends in three carriage returns and a line feed does not keep its id. */
  lemma StampedFileLosesItsId(id: string)
    requires OneLine(id)
    ensures var raw := Join("id: a", "\r\r\r\n");
            && HashableText(raw).Some? && WithFileId(raw, id).Some?
            && HashableText(WithFileId(raw, id).value) != HashableText(raw)
  {
    var raw, head := Join("id: a", "\r\r\r\n"), OPEN + "id: a" + "\n---\n";
    ThreeReturns();
    LfAfter(head, "\r\r\r\n");
    LfAfter(head, "\r\r\n");
    assert Normal(raw) == Join("id: a", "\r\n");
    SplitJoin("id: a", "\r\n");
    var text := HashableText(raw).value;
    var before := OPEN + Mask("id: a", DERIVED_ID_PLACEHOLDER) + "\n---\n";
    assert text == before + "\r\n";
    assert CrLfAt(text, |before|);
    StampKeepsHashableText(raw, id);
  }
}
