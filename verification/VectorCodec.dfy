/**
 * The packed payload of the vector index: little-endian header, then per entry a length-prefixed
 * id, a length-prefixed meta text and the vector. Vectors are 32-bit words; ids and meta are bytes.
 */
module VectorCodec {
  import opened Orders

  newtype Byte = x: int | 0 <= x < 256

  type Bytes = seq<Byte>

  const WORD_LIMIT: nat := 0x1_0000_0000

  type Word = x: nat | x < WORD_LIMIT

  const MAGIC: Bytes := [84, 72, 65, 50, 86, 73, 68, 88]
  const VERSION: nat := 1
  const HEADER_BYTES: nat := 20

  /** `meta` is the canonical JSON text, never empty; a missing meta is no text at all. */
  datatype Entry = Entry(id: Bytes, meta: Option<Bytes>, vec: seq<Word>)

  datatype Index = Index(entries: seq<Entry>, dim: nat)

  datatype Corruption =
    | TruncatedHeader | UnrecognizedMagic | UnsupportedVersion(version: nat)
    | TruncatedIdLength | TruncatedId | TruncatedMetaLength | TruncatedMeta | UnparseableMeta | TruncatedVector

  datatype Result<+T> = Ok(value: T) | Corrupt(why: Corruption)

  // ---------------------------------------------------------------------------
  // setUint32 and getUint32, little-endian
  // ---------------------------------------------------------------------------

  /** The low 32 bits, as setUint32 stores them. */
  function U32(n: nat): (b: Bytes)
    ensures |b| == 4
  {
    var a := n / 256;
    var c := a / 256;
    var d := c / 256;
    [(n % 256) as Byte, (a % 256) as Byte, (c % 256) as Byte, (d % 256) as Byte]
  }

  function GetU32(buf: Bytes, o: nat): (n: Word)
    requires o + 4 <= |buf|
  {
    buf[o] as nat + 256 * (buf[o + 1] as nat + 256 * (buf[o + 2] as nat + 256 * buf[o + 3] as nat))
  }

  ghost predicate Has(buf: Bytes, o: nat, part: Bytes) {
    o + |part| <= |buf| && buf[o..o + |part|] == part
  }

  lemma HasBoth(buf: Bytes, o: nat, a: Bytes, b: Bytes)
    ensures Has(buf, o, a + b) <==> Has(buf, o, a) && Has(buf, o + |a|, b)
  {
    if o + |a + b| <= |buf| {
      var part := buf[o..o + |a + b|];
      assert part[..|a|] == buf[o..o + |a|] && part[|a|..] == buf[o + |a|..o + |a| + |b|];
      assert (a + b)[..|a|] == a && (a + b)[|a|..] == b;
      assert part == part[..|a|] + part[|a|..];
    }
  }

  lemma GetBack(buf: Bytes, o: nat, n: Word)
    requires Has(buf, o, U32(n))
    ensures GetU32(buf, o) == n
  {
    var part := buf[o..o + 4];
    assert buf[o] == part[0] && buf[o + 1] == part[1] && buf[o + 2] == part[2] && buf[o + 3] == part[3];
  }

  // ---------------------------------------------------------------------------
  // encode
  // ---------------------------------------------------------------------------

  function EncodeWords(vec: seq<Word>): (b: Bytes)
    ensures |b| == 4 * |vec|
    decreases |vec|
  {
    if vec == [] then [] else EncodeWords(vec[..|vec| - 1]) + U32(vec[|vec| - 1])
  }

  function MetaBytes(e: Entry): Bytes {
    if e.meta.Some? then e.meta.value else []
  }

  /** Bytes behind their length. */
  function EncodeBlob(b: Bytes): Bytes {
    U32(|b|) + b
  }

  function EncodeEntry(e: Entry): Bytes {
    EncodeBlob(e.id) + EncodeBlob(MetaBytes(e)) + EncodeWords(e.vec)
  }

  function Concat(parts: seq<Bytes>): Bytes
    decreases |parts|
  {
    if parts == [] then [] else Concat(parts[..|parts| - 1]) + parts[|parts| - 1]
  }

  function EntryParts(es: seq<Entry>): (parts: seq<Bytes>)
    ensures |parts| == |es|
  {
    seq(|es|, k requires 0 <= k < |es| => EncodeEntry(es[k]))
  }

  function EncodeEntries(es: seq<Entry>): Bytes {
    Concat(EntryParts(es))
  }

  function Header(count: nat, dim: nat): (b: Bytes)
    ensures |b| == HEADER_BYTES
  {
    MAGIC + U32(VERSION) + U32(count) + U32(dim)
  }

  function Encode(x: Index): Bytes {
    Header(|x.entries|, x.dim) + EncodeEntries(x.entries)
  }

  // ---------------------------------------------------------------------------
  // decode
  // ---------------------------------------------------------------------------

  function ReadWords(buf: Bytes, o: nat, n: nat): (vec: seq<Word>)
    requires o + 4 * n <= |buf|
    ensures |vec| == n
  {
    if n == 0 then [] else ReadWords(buf, o, n - 1) + [GetU32(buf, o + 4 * (n - 1))]
  }

  datatype Blob = Blob(bytes: Bytes, next: nat)

  /** A length and that many bytes; either may be cut off. */
  function ReadBlob(buf: Bytes, o: nat, noLength: Corruption, cut: Corruption): (r: Result<Blob>)
    ensures r.Ok? ==> o + 4 <= r.value.next <= |buf|
  {
    if o + 4 > |buf| then Corrupt(noLength)
    else if o + 4 + GetU32(buf, o) > |buf| then Corrupt(cut)
    else
      var end := o + 4 + GetU32(buf, o);
      Ok(Blob(buf[o + 4..end], end))
  }

  datatype Step = Step(entry: Entry, next: nat)

  function ReadVector(buf: Bytes, o: nat, dim: nat, id: Bytes, meta: Bytes): (r: Result<Step>)
    ensures r.Ok? ==> o <= r.value.next <= |buf|
  {
    if o + dim * 4 > |buf| then Corrupt(TruncatedVector)
    else Ok(Step(Entry(id, if meta == [] then None else Some(meta), ReadWords(buf, o, dim)), o + dim * 4))
  }

  function ReadEntry(buf: Bytes, o: nat, dim: nat, parses: Bytes -> bool): (r: Result<Step>)
    ensures r.Ok? ==> o + 8 <= r.value.next <= |buf|
  {
    match ReadBlob(buf, o, TruncatedIdLength, TruncatedId)
    case Corrupt(why) => Corrupt(why)
    case Ok(id) =>
      match ReadBlob(buf, id.next, TruncatedMetaLength, TruncatedMeta)
      case Corrupt(why) => Corrupt(why)
      case Ok(meta) =>
        if meta.bytes != [] && !parses(meta.bytes) then Corrupt(UnparseableMeta)
        else ReadVector(buf, meta.next, dim, id.bytes, meta.bytes)
  }

  /** Map.set: a known id keeps its place and gets the new value, a new one goes last. */
  function Put(out: seq<Entry>, e: Entry): seq<Entry> {
    if out == [] then [e]
    else if out[0].id == e.id then [e] + out[1..]
    else [out[0]] + Put(out[1..], e)
  }

  lemma {:induction false} PutNew(out: seq<Entry>, e: Entry)
    requires forall i | 0 <= i < |out| :: out[i].id != e.id
    ensures Put(out, e) == out + [e]
  {
    if out != [] {
      PutNew(out[1..], e);
      assert out == [out[0]] + out[1..];
    }
  }

  lemma {:induction false} PutKnown(out: seq<Entry>, e: Entry, k: nat)
    requires k < |out| && out[k].id == e.id && forall i | 0 <= i < k :: out[i].id != e.id
    ensures Put(out, e) == out[k := e]
  {
    if k == 0 {
      assert out[0 := e] == [e] + out[1..];
    } else {
      PutKnown(out[1..], e, k - 1);
      assert out[k := e] == [out[0]] + out[1..][k - 1 := e];
    }
  }

  type Reader = nat -> Result<Step>

  function EntryReader(buf: Bytes, dim: nat, parses: Bytes -> bool): Reader {
    (o: nat) => ReadEntry(buf, o, dim, parses)
  }

  /** `n` entries one after the other, each where the one before it ended. */
  function ReadAll(read: Reader, o: nat, n: nat, out: seq<Entry>): Result<seq<Entry>>
    decreases n
  {
    if n == 0 then Ok(out)
    else
      match read(o)
      case Corrupt(why) => Corrupt(why)
      case Ok(step) => ReadAll(read, step.next, n - 1, Put(out, step.entry))
  }

  datatype Decoded = Decoded(entries: seq<Entry>, dim: nat, count: nat)

  function Decode(buf: Bytes, parses: Bytes -> bool): Result<Decoded> {
    if |buf| < HEADER_BYTES then Corrupt(TruncatedHeader)
    else if buf[..8] != MAGIC then Corrupt(UnrecognizedMagic)
    else if GetU32(buf, 8) != VERSION then Corrupt(UnsupportedVersion(GetU32(buf, 8)))
    else
      match ReadAll(EntryReader(buf, GetU32(buf, 16), parses), HEADER_BYTES, GetU32(buf, 12), [])
      case Corrupt(why) => Corrupt(why)
      case Ok(entries) => Ok(Decoded(entries, GetU32(buf, 16), GetU32(buf, 12)))
  }

  // ---------------------------------------------------------------------------
  // Reading back what was written
  // ---------------------------------------------------------------------------

  /** Lengths fit their prefixes, the vector has the index's dimension, the meta text is one that parses. */
  ghost predicate Fits(e: Entry, dim: nat, parses: Bytes -> bool) {
    && |e.id| < WORD_LIMIT && |MetaBytes(e)| < WORD_LIMIT && |e.vec| == dim
    && (e.meta.Some? ==> e.meta.value != [] && parses(e.meta.value))
  }

  ghost predicate FitsAll(x: Index, parses: Bytes -> bool) {
    && |x.entries| < WORD_LIMIT && x.dim < WORD_LIMIT
    && forall e | e in x.entries :: Fits(e, x.dim, parses)
  }

  ghost predicate DistinctIds(es: seq<Entry>) {
    forall i, j | 0 <= i < j < |es| :: es[i].id != es[j].id
  }

  lemma {:induction false} WordsBack(buf: Bytes, o: nat, vec: seq<Word>)
    requires Has(buf, o, EncodeWords(vec))
    ensures ReadWords(buf, o, |vec|) == vec
    decreases |vec|
  {
    if vec != [] {
      var init, w := vec[..|vec| - 1], vec[|vec| - 1];
      HasBoth(buf, o, EncodeWords(init), U32(w));
      WordsBack(buf, o, init);
      GetBack(buf, o + 4 * |init|, w);
    }
  }

  lemma BlobBack(buf: Bytes, o: nat, b: Bytes, noLength: Corruption, cut: Corruption)
    requires Has(buf, o, EncodeBlob(b)) && |b| < WORD_LIMIT
    ensures ReadBlob(buf, o, noLength, cut) == Ok(Blob(b, o + 4 + |b|))
  {
    HasBoth(buf, o, U32(|b|), b);
    GetBack(buf, o, |b|);
  }

  lemma EntryFields(buf: Bytes, o: nat, e: Entry)
    requires Has(buf, o, EncodeEntry(e))
    ensures var o1 := o + 4 + |e.id|; var o2 := o1 + 4 + |MetaBytes(e)|;
            && Has(buf, o, EncodeBlob(e.id)) && Has(buf, o1, EncodeBlob(MetaBytes(e)))
            && Has(buf, o2, EncodeWords(e.vec)) && o + |EncodeEntry(e)| == o2 + 4 * |e.vec|
  {
    var a, b, w := EncodeBlob(e.id), EncodeBlob(MetaBytes(e)), EncodeWords(e.vec);
    HasBoth(buf, o, a + b, w);
    HasBoth(buf, o, a, b);
  }

  lemma VectorBack(buf: Bytes, o: nat, e: Entry, dim: nat, parses: Bytes -> bool)
    requires Has(buf, o, EncodeWords(e.vec)) && Fits(e, dim, parses)
    ensures ReadVector(buf, o, dim, e.id, MetaBytes(e)) == Ok(Step(e, o + 4 * |e.vec|))
  {
    WordsBack(buf, o, e.vec);
  }

  ghost predicate ReadsAs(buf: Bytes, o: nat, dim: nat, parses: Bytes -> bool, e: Entry, next: nat) {
    ReadEntry(buf, o, dim, parses) == Ok(Step(e, next))
  }

  ghost predicate Refused(buf: Bytes, o: nat, dim: nat, parses: Bytes -> bool) {
    ReadEntry(buf, o, dim, parses).Corrupt?
  }

  /** The three parts of an entry read one after the other. */
  lemma EntryAssembled(buf: Bytes, o: nat, o1: nat, o2: nat, next: nat, e: Entry, dim: nat, parses: Bytes -> bool)
    requires ReadBlob(buf, o, TruncatedIdLength, TruncatedId) == Ok(Blob(e.id, o1))
    requires ReadBlob(buf, o1, TruncatedMetaLength, TruncatedMeta) == Ok(Blob(MetaBytes(e), o2))
    requires MetaBytes(e) != [] ==> parses(MetaBytes(e))
    requires ReadVector(buf, o2, dim, e.id, MetaBytes(e)) == Ok(Step(e, next))
    ensures ReadsAs(buf, o, dim, parses, e, next)
  {
  }

  lemma EntryLength(e: Entry)
    ensures |EncodeEntry(e)| == 8 + |e.id| + |MetaBytes(e)| + 4 * |e.vec|
  {
  }

  lemma IdReads(buf: Bytes, o: nat, e: Entry)
    requires Has(buf, o, EncodeEntry(e)) && |e.id| < WORD_LIMIT
    ensures ReadBlob(buf, o, TruncatedIdLength, TruncatedId) == Ok(Blob(e.id, o + 4 + |e.id|))
  {
    assert Has(buf, o, EncodeBlob(e.id)) by {
      EntryFields(buf, o, e);
    }
    BlobBack(buf, o, e.id, TruncatedIdLength, TruncatedId);
  }

  lemma MetaReads(buf: Bytes, o: nat, e: Entry)
    requires Has(buf, o, EncodeEntry(e)) && |MetaBytes(e)| < WORD_LIMIT
    ensures var o1 := o + 4 + |e.id|;
            ReadBlob(buf, o1, TruncatedMetaLength, TruncatedMeta) == Ok(Blob(MetaBytes(e), o1 + 4 + |MetaBytes(e)|))
  {
    assert Has(buf, o + 4 + |e.id|, EncodeBlob(MetaBytes(e))) by {
      EntryFields(buf, o, e);
    }
    BlobBack(buf, o + 4 + |e.id|, MetaBytes(e), TruncatedMetaLength, TruncatedMeta);
  }

  lemma VectorReads(buf: Bytes, o: nat, e: Entry, dim: nat, parses: Bytes -> bool)
    requires Has(buf, o, EncodeEntry(e)) && Fits(e, dim, parses)
    ensures var o2 := o + 8 + |e.id| + |MetaBytes(e)|;
            ReadVector(buf, o2, dim, e.id, MetaBytes(e)) == Ok(Step(e, o2 + 4 * |e.vec|))
  {
    EntryFields(buf, o, e);
    VectorBack(buf, o + 8 + |e.id| + |MetaBytes(e)|, e, dim, parses);
  }

  lemma EntryBack(buf: Bytes, o: nat, e: Entry, dim: nat, parses: Bytes -> bool)
    requires Has(buf, o, EncodeEntry(e)) && Fits(e, dim, parses)
    ensures ReadsAs(buf, o, dim, parses, e, o + |EncodeEntry(e)|)
  {
    var o1 := o + 4 + |e.id|;
    var o2 := o1 + 4 + |MetaBytes(e)|;
    IdReads(buf, o, e);
    MetaReads(buf, o, e);
    VectorReads(buf, o, e, dim, parses);
    EntryLength(e);
    EntryAssembled(buf, o, o1, o2, o + |EncodeEntry(e)|, e, dim, parses);
  }

  lemma NextConcat(parts: seq<Bytes>, k: nat)
    requires k < |parts|
    ensures Concat(parts[..k + 1]) == Concat(parts[..k]) + parts[k]
  {
    assert parts[..k + 1][..k] == parts[..k];
  }

  lemma {:induction false} PartAt(buf: Bytes, o: nat, parts: seq<Bytes>, k: nat)
    requires k < |parts| && Has(buf, o, Concat(parts))
    ensures Has(buf, o + |Concat(parts[..k])|, parts[k])
    decreases |parts|
  {
    var init, last := parts[..|parts| - 1], parts[|parts| - 1];
    HasBoth(buf, o, Concat(init), last);
    if k < |init| {
      assert init[..k] == parts[..k];
      PartAt(buf, o, init, k);
    }
  }

  /** Where the k-th entry starts. */
  ghost function Offset(es: seq<Entry>, k: nat): nat
    requires k <= |es|
  {
    HEADER_BYTES + |Concat(EntryParts(es)[..k])|
  }

  lemma EntryAt(buf: Bytes, es: seq<Entry>, k: nat)
    requires k < |es| && Has(buf, HEADER_BYTES, EncodeEntries(es))
    ensures Has(buf, Offset(es, k), EncodeEntry(es[k]))
    ensures Offset(es, k + 1) == Offset(es, k) + |EncodeEntry(es[k])|
  {
    var parts := EntryParts(es);
    PartAt(buf, HEADER_BYTES, parts, k);
    NextConcat(parts, k);
    assert parts[k] == EncodeEntry(es[k]);
  }

  lemma PutNext(es: seq<Entry>, k: nat)
    requires DistinctIds(es) && k < |es|
    ensures Put(es[..k], es[k]) == es[..k + 1]
  {
    PutNew(es[..k], es[k]);
    assert es[..k + 1] == es[..k] + [es[k]];
  }

  /** Everything about the k-th entry that reading it needs. */
  lemma EntryLies(buf: Bytes, x: Index, k: nat, parses: Bytes -> bool)
    requires FitsAll(x, parses) && k < |x.entries| && Has(buf, HEADER_BYTES, EncodeEntries(x.entries))
    ensures Has(buf, Offset(x.entries, k), EncodeEntry(x.entries[k]))
    ensures Offset(x.entries, k + 1) == Offset(x.entries, k) + |EncodeEntry(x.entries[k])|
    ensures Fits(x.entries[k], x.dim, parses)
  {
    EntryAt(buf, x.entries, k);
    assert x.entries[k] in x.entries;
  }

  ghost function Offsets(es: seq<Entry>): (offs: seq<nat>)
    ensures |offs| == |es| + 1
  {
    seq(|es| + 1, k requires 0 <= k <= |es| => Offset(es, k))
  }

  lemma OffsetsEnds(es: seq<Entry>)
    ensures Offsets(es)[0] == HEADER_BYTES && Offsets(es)[|es|] == HEADER_BYTES + |EncodeEntries(es)|
  {
    assert EntryParts(es)[..0] == [] && EntryParts(es)[..|es|] == EntryParts(es);
  }

  /** The reader finds each entry at its offset. */
  ghost predicate Finds(read: Reader, es: seq<Entry>, offs: seq<nat>)
    requires |offs| == |es| + 1
  {
    forall j: nat | j < |es| :: read(offs[j]) == Ok(Step(es[j], offs[j + 1]))
  }

  /** The reader finds what ends within the size, and refuses what does not. */
  ghost predicate FindsUpTo(read: Reader, es: seq<Entry>, offs: seq<nat>, size: nat)
    requires |offs| == |es| + 1
  {
    forall j: nat | j < |es| ::
      if offs[j + 1] <= size then read(offs[j]) == Ok(Step(es[j], offs[j + 1])) else read(offs[j]).Corrupt?
  }

  /** A reader that finds each entry at its offset reads them all, each put in its turn. */
  lemma AllBack(read: Reader, es: seq<Entry>, offs: seq<nat>, k: nat)
    requires |offs| == |es| + 1 && k <= |es| && DistinctIds(es) && Finds(read, es, offs)
    ensures ReadAll(read, offs[k], |es| - k, es[..k]) == Ok(es)
    decreases |es| - k
  {
    if k == |es| {
      assert es[..k] == es;
    } else {
      PutNext(es, k);
      AllBack(read, es, offs, k + 1);
    }
  }

  /** A reader that refuses what lies past the cut refuses the whole. */
  lemma AllCut(read: Reader, es: seq<Entry>, offs: seq<nat>, size: nat, k: nat, out: seq<Entry>)
    requires |offs| == |es| + 1 && k <= |es| && offs[k] <= size < offs[|es|] && FindsUpTo(read, es, offs, size)
    ensures ReadAll(read, offs[k], |es| - k, out).Corrupt?
    decreases |es| - k
  {
    if offs[k + 1] <= size {
      AllCut(read, es, offs, size, k + 1, Put(out, es[k]));
    }
  }

  lemma EntryBackAt(buf: Bytes, x: Index, k: nat, parses: Bytes -> bool)
    requires FitsAll(x, parses) && k < |x.entries| && Has(buf, HEADER_BYTES, EncodeEntries(x.entries))
    ensures ReadsAs(buf, Offset(x.entries, k), x.dim, parses, x.entries[k], Offset(x.entries, k + 1))
  {
    EntryLies(buf, x, k, parses);
    EntryBackTo(buf, Offset(x.entries, k), Offset(x.entries, k + 1), x.entries[k], x.dim, parses);
  }

  lemma EntryBackTo(buf: Bytes, o: nat, next: nat, e: Entry, dim: nat, parses: Bytes -> bool)
    requires Has(buf, o, EncodeEntry(e)) && Fits(e, dim, parses) && next == o + |EncodeEntry(e)|
    ensures ReadsAs(buf, o, dim, parses, e, next)
  {
    EntryBack(buf, o, e, dim, parses);
  }

  lemma ReaderFinds(buf: Bytes, x: Index, parses: Bytes -> bool)
    requires FitsAll(x, parses) && Has(buf, HEADER_BYTES, EncodeEntries(x.entries))
    ensures Finds(EntryReader(buf, x.dim, parses), x.entries, Offsets(x.entries))
  {
    forall k: nat | k < |x.entries|
      ensures ReadsAs(buf, Offset(x.entries, k), x.dim, parses, x.entries[k], Offset(x.entries, k + 1))
    {
      EntryBackAt(buf, x, k, parses);
    }
  }

  lemma EntriesBack(buf: Bytes, x: Index, parses: Bytes -> bool)
    requires FitsAll(x, parses) && DistinctIds(x.entries) && Has(buf, HEADER_BYTES, EncodeEntries(x.entries))
    ensures ReadAll(EntryReader(buf, x.dim, parses), HEADER_BYTES, |x.entries|, []) == Ok(x.entries)
  {
    ReaderFinds(buf, x, parses);
    OffsetsEnds(x.entries);
    AllBackFromStart(EntryReader(buf, x.dim, parses), x.entries, Offsets(x.entries));
  }

  lemma AllBackFromStart(read: Reader, es: seq<Entry>, offs: seq<nat>)
    requires |offs| == |es| + 1 && DistinctIds(es) && Finds(read, es, offs)
    ensures ReadAll(read, offs[0], |es|, []) == Ok(es)
  {
    AllBack(read, es, offs, 0);
    assert es[..0] == [];
  }

  lemma HeaderBack(buf: Bytes, count: Word, dim: Word)
    requires Has(buf, 0, Header(count, dim))
    ensures |buf| >= HEADER_BYTES && buf[..8] == MAGIC
    ensures GetU32(buf, 8) == VERSION && GetU32(buf, 12) == count && GetU32(buf, 16) == dim
  {
    HasBoth(buf, 0, MAGIC + U32(VERSION) + U32(count), U32(dim));
    HasBoth(buf, 0, MAGIC + U32(VERSION), U32(count));
    HasBoth(buf, 0, MAGIC, U32(VERSION));
    GetBack(buf, 8, VERSION);
    GetBack(buf, 12, count);
    GetBack(buf, 16, dim);
  }

  /** What was encoded decodes to the same ids, metas and vectors, in order; trailing bytes are ignored. */
  lemma RoundTrip(x: Index, trailing: Bytes, parses: Bytes -> bool)
    requires FitsAll(x, parses) && DistinctIds(x.entries)
    ensures Decode(Encode(x) + trailing, parses) == Ok(Decoded(x.entries, x.dim, |x.entries|))
  {
    var buf, header, body := Encode(x) + trailing, Header(|x.entries|, x.dim), EncodeEntries(x.entries);
    assert Has(buf, 0, header + body) by {
      assert buf[..|header + body|] == header + body;
    }
    HasBoth(buf, 0, header, body);
    HeaderBack(buf, |x.entries|, x.dim);
    EntriesBack(buf, x, parses);
  }

  // ---------------------------------------------------------------------------
  // Refusing what was cut off
  // ---------------------------------------------------------------------------

  lemma HasInPrefix(whole: Bytes, n: nat, o: nat, part: Bytes)
    requires n <= |whole| && Has(whole, o, part) && o + |part| <= n
    ensures Has(whole[..n], o, part)
  {
  }

  lemma GetInPrefix(whole: Bytes, n: nat, o: nat, value: Word)
    requires n <= |whole| && o + 4 <= n && Has(whole, o, U32(value))
    ensures GetU32(whole[..n], o) == value
  {
    HasInPrefix(whole, n, o, U32(value));
    GetBack(whole[..n], o, value);
  }

  /** A blob that runs past the cut is refused; one that does not is read. */
  lemma BlobCut(whole: Bytes, n: nat, o: nat, b: Bytes, noLength: Corruption, cut: Corruption)
    requires n <= |whole| && Has(whole, o, EncodeBlob(b)) && |b| < WORD_LIMIT
    ensures ReadBlob(whole[..n], o, noLength, cut) == if o + 4 + |b| <= n then Ok(Blob(b, o + 4 + |b|))
                                                      else if o + 4 <= n then Corrupt(cut) else Corrupt(noLength)
  {
    HasBoth(whole, o, U32(|b|), b);
    if o + 4 + |b| <= n {
      HasInPrefix(whole, n, o, EncodeBlob(b));
      BlobBack(whole[..n], o, b, noLength, cut);
    } else if o + 4 <= n {
      GetInPrefix(whole, n, o, |b|);
    }
  }

  lemma IdUpTo(whole: Bytes, n: nat, o: nat, e: Entry)
    requires n <= |whole| && Has(whole, o, EncodeEntry(e)) && |e.id| < WORD_LIMIT
    ensures var r := ReadBlob(whole[..n], o, TruncatedIdLength, TruncatedId);
            if o + 4 + |e.id| <= n then r == Ok(Blob(e.id, o + 4 + |e.id|)) else r.Corrupt?
  {
    assert Has(whole, o, EncodeBlob(e.id)) by {
      EntryFields(whole, o, e);
    }
    BlobCut(whole, n, o, e.id, TruncatedIdLength, TruncatedId);
  }

  lemma MetaUpTo(whole: Bytes, n: nat, o: nat, e: Entry)
    requires n <= |whole| && Has(whole, o, EncodeEntry(e)) && |MetaBytes(e)| < WORD_LIMIT
    ensures var o1 := o + 4 + |e.id|; var o2 := o1 + 4 + |MetaBytes(e)|;
            var r := ReadBlob(whole[..n], o1, TruncatedMetaLength, TruncatedMeta);
            if o2 <= n then r == Ok(Blob(MetaBytes(e), o2)) else r.Corrupt?
  {
    assert Has(whole, o + 4 + |e.id|, EncodeBlob(MetaBytes(e))) by {
      EntryFields(whole, o, e);
    }
    BlobCut(whole, n, o + 4 + |e.id|, MetaBytes(e), TruncatedMetaLength, TruncatedMeta);
  }

  /** One of the three parts of an entry is cut off. */
  lemma PartRefused(buf: Bytes, o: nat, dim: nat, parses: Bytes -> bool)
    requires var id := ReadBlob(buf, o, TruncatedIdLength, TruncatedId);
             id.Ok? ==>
               var meta := ReadBlob(buf, id.value.next, TruncatedMetaLength, TruncatedMeta);
               meta.Ok? ==> meta.value.next + dim * 4 > |buf|
    ensures Refused(buf, o, dim, parses)
  {
  }

  lemma EntryCut(whole: Bytes, n: nat, o: nat, e: Entry, dim: nat, parses: Bytes -> bool)
    requires n <= |whole| && Has(whole, o, EncodeEntry(e)) && Fits(e, dim, parses)
    requires n < o + |EncodeEntry(e)|
    ensures Refused(whole[..n], o, dim, parses)
  {
    EntryLength(e);
    IdUpTo(whole, n, o, e);
    MetaUpTo(whole, n, o, e);
    PartRefused(whole[..n], o, dim, parses);
  }

  lemma EntryWithin(whole: Bytes, n: nat, o: nat, e: Entry, dim: nat, parses: Bytes -> bool)
    requires n <= |whole| && Has(whole, o, EncodeEntry(e)) && Fits(e, dim, parses)
    requires o + |EncodeEntry(e)| <= n
    ensures ReadsAs(whole[..n], o, dim, parses, e, o + |EncodeEntry(e)|)
  {
    HasInPrefix(whole, n, o, EncodeEntry(e));
    EntryBack(whole[..n], o, e, dim, parses);
  }

  /** An entry is read if it ends within the cut, and refused otherwise. */
  lemma EntryUpTo(whole: Bytes, n: nat, o: nat, next: nat, e: Entry, dim: nat, parses: Bytes -> bool)
    requires n <= |whole| && Has(whole, o, EncodeEntry(e)) && Fits(e, dim, parses) && next == o + |EncodeEntry(e)|
    ensures if next <= n then ReadsAs(whole[..n], o, dim, parses, e, next) else Refused(whole[..n], o, dim, parses)
  {
    if next <= n {
      EntryWithin(whole, n, o, e, dim, parses);
    } else {
      EntryCut(whole, n, o, e, dim, parses);
    }
  }

  lemma EntryCutAt(whole: Bytes, n: nat, x: Index, k: nat, parses: Bytes -> bool)
    requires FitsAll(x, parses) && k < |x.entries| && Has(whole, HEADER_BYTES, EncodeEntries(x.entries)) && n <= |whole|
    ensures if Offset(x.entries, k + 1) <= n
            then ReadsAs(whole[..n], Offset(x.entries, k), x.dim, parses, x.entries[k], Offset(x.entries, k + 1))
            else Refused(whole[..n], Offset(x.entries, k), x.dim, parses)
  {
    EntryLies(whole, x, k, parses);
    EntryUpTo(whole, n, Offset(x.entries, k), Offset(x.entries, k + 1), x.entries[k], x.dim, parses);
  }

  lemma CutReaderFinds(whole: Bytes, n: nat, x: Index, parses: Bytes -> bool)
    requires FitsAll(x, parses) && Has(whole, HEADER_BYTES, EncodeEntries(x.entries)) && n <= |whole|
    ensures FindsUpTo(EntryReader(whole[..n], x.dim, parses), x.entries, Offsets(x.entries), n)
  {
    forall k: nat | k < |x.entries|
      ensures if Offset(x.entries, k + 1) <= n
              then ReadsAs(whole[..n], Offset(x.entries, k), x.dim, parses, x.entries[k], Offset(x.entries, k + 1))
              else Refused(whole[..n], Offset(x.entries, k), x.dim, parses)
    {
      EntryCutAt(whole, n, x, k, parses);
    }
  }

  lemma EntriesCut(whole: Bytes, n: nat, x: Index, parses: Bytes -> bool)
    requires FitsAll(x, parses) && Has(whole, HEADER_BYTES, EncodeEntries(x.entries))
    requires HEADER_BYTES <= n <= |whole| && n < HEADER_BYTES + |EncodeEntries(x.entries)|
    ensures ReadAll(EntryReader(whole[..n], x.dim, parses), HEADER_BYTES, |x.entries|, []).Corrupt?
  {
    CutReaderFinds(whole, n, x, parses);
    OffsetsEnds(x.entries);
    AllCut(EntryReader(whole[..n], x.dim, parses), x.entries, Offsets(x.entries), n, 0, []);
  }

  /** Every proper prefix of an encoding is refused. */
  lemma PrefixRefused(x: Index, n: nat, parses: Bytes -> bool)
    requires FitsAll(x, parses) && n < |Encode(x)|
    ensures Decode(Encode(x)[..n], parses).Corrupt?
  {
    var whole, header, body := Encode(x), Header(|x.entries|, x.dim), EncodeEntries(x.entries);
    assert Has(whole, 0, header) && Has(whole, HEADER_BYTES, body) by {
      assert whole == header + body;
      HasBoth(whole, 0, header, body);
    }
    if n >= HEADER_BYTES {
      HasInPrefix(whole, n, 0, header);
      HeaderBack(whole[..n], |x.entries|, x.dim);
      EntriesCut(whole, n, x, parses);
    }
  }
}
