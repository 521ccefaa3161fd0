/**
 * The vector index itself: the buffer written at a moving offset, the buffer read at one, and the
 * dimension discipline of upsert and load.
 */
module VectorIndex {
  import opened Orders
  import opened VectorCodec

  // ---------------------------------------------------------------------------
  // encode
  // ---------------------------------------------------------------------------

  method PutU32(buf: array<Byte>, o: nat, n: nat) returns (next: nat)
    requires o + 4 <= buf.Length
    modifies buf
    ensures next == o + 4 && buf[..next] == old(buf[..o]) + U32(n)
  {
    var b := U32(n);
    buf[o], buf[o + 1], buf[o + 2], buf[o + 3] := b[0], b[1], b[2], b[3];
    next := o + 4;
    assert buf[..next] == buf[..o] + b;
  }

  method PutBytes(buf: array<Byte>, o: nat, bytes: Bytes) returns (next: nat)
    requires o + |bytes| <= buf.Length
    modifies buf
    ensures next == o + |bytes| && buf[..next] == old(buf[..o]) + bytes
  {
    for i := 0 to |bytes|
      invariant buf[..o + i] == old(buf[..o]) + bytes[..i]
    {
      buf[o + i] := bytes[i];
      assert bytes[..i + 1] == bytes[..i] + [bytes[i]];
      assert buf[..o + i + 1] == buf[..o + i] + [bytes[i]];
    }
    assert bytes[..|bytes|] == bytes;
    next := o + |bytes|;
  }

  method PutWords(buf: array<Byte>, o: nat, vec: seq<Word>) returns (next: nat)
    requires o + 4 * |vec| <= buf.Length
    modifies buf
    ensures next == o + 4 * |vec| && buf[..next] == old(buf[..o]) + EncodeWords(vec)
  {
    next := o;
    for d := 0 to |vec|
      invariant next == o + 4 * d && buf[..next] == old(buf[..o]) + EncodeWords(vec[..d])
    {
      next := PutU32(buf, next, vec[d]);
      assert vec[..d + 1][..d] == vec[..d];
    }
    assert vec[..|vec|] == vec;
  }

  method PutHeader(buf: array<Byte>, count: nat, dim: nat) returns (next: nat)
    requires HEADER_BYTES <= buf.Length
    modifies buf
    ensures next == HEADER_BYTES && buf[..next] == Header(count, dim)
  {
    next := PutBytes(buf, 0, MAGIC);
    next := PutU32(buf, next, VERSION);
    next := PutU32(buf, next, count);
    next := PutU32(buf, next, dim);
  }

  method PutEntry(buf: array<Byte>, o: nat, e: Entry) returns (next: nat)
    requires o + |EncodeEntry(e)| <= buf.Length
    modifies buf
    ensures next == o + |EncodeEntry(e)| && buf[..next] == old(buf[..o]) + EncodeEntry(e)
  {
    ghost var before := buf[..o];
    var meta := MetaBytes(e);
    assert |EncodeEntry(e)| == 8 + |e.id| + |meta| + 4 * |e.vec|;
    next := PutBlob(buf, o, e.id);
    assert buf[..next] == before + EncodeBlob(e.id);
    next := PutBlob(buf, next, meta);
    assert buf[..next] == before + EncodeBlob(e.id) + EncodeBlob(meta);
    next := PutWords(buf, next, e.vec);
    assert buf[..next] == before + EncodeEntry(e);
  }

  method PutBlob(buf: array<Byte>, o: nat, bytes: Bytes) returns (next: nat)
    requires o + 4 + |bytes| <= buf.Length
    modifies buf
    ensures next == o + 4 + |bytes| && buf[..next] == old(buf[..o]) + EncodeBlob(bytes)
  {
    ghost var before := buf[..o];
    next := PutU32(buf, o, |bytes|);
    next := PutBytes(buf, next, bytes);
    assert buf[..next] == before + EncodeBlob(bytes);
  }

  method PayloadBytes(entries: seq<Entry>, dim: nat) returns (total: nat)
    requires forall e | e in entries :: |e.vec| == dim
    ensures total == |Encode(Index(entries, dim))|
  {
    total := HEADER_BYTES;
    for i := 0 to |entries|
      invariant total == HEADER_BYTES + |Concat(EntryParts(entries)[..i])|
    {
      var e := entries[i];
      assert e in entries;
      NextConcat(EntryParts(entries), i);
      total := total + 4 + |e.id| + 4 + |MetaBytes(e)| + dim * 4;
    }
    assert EntryParts(entries)[..|entries|] == EntryParts(entries);
  }

  ghost function WrittenUpTo(entries: seq<Entry>, dim: nat, k: nat): Bytes
    requires k <= |entries|
  {
    Header(|entries|, dim) + Concat(EntryParts(entries)[..k])
  }

  lemma WrittenNext(entries: seq<Entry>, dim: nat, k: nat)
    requires k < |entries|
    ensures WrittenUpTo(entries, dim, k + 1) == WrittenUpTo(entries, dim, k) + EncodeEntry(entries[k])
    ensures |WrittenUpTo(entries, dim, k + 1)| <= |Encode(Index(entries, dim))|
  {
    var parts := EntryParts(entries);
    NextConcat(parts, k);
    PrefixFits(parts, k + 1);
    assert parts[k] == EncodeEntry(entries[k]);
    assert Header(|entries|, dim) + (Concat(parts[..k]) + parts[k]) == Header(|entries|, dim) + Concat(parts[..k]) + parts[k];
  }

  lemma WrittenEnds(entries: seq<Entry>, dim: nat)
    ensures WrittenUpTo(entries, dim, 0) == Header(|entries|, dim)
    ensures WrittenUpTo(entries, dim, |entries|) == Encode(Index(entries, dim))
  {
    assert EntryParts(entries)[..0] == [] && EntryParts(entries)[..|entries|] == EntryParts(entries);
  }

  /** The buffer that encode writes field by field is the encoding. */
  method EncodeBuffer(entries: seq<Entry>, dim: nat) returns (buf: array<Byte>)
    requires forall e | e in entries :: |e.vec| == dim
    ensures fresh(buf) && buf[..] == Encode(Index(entries, dim))
  {
    var total := PayloadBytes(entries, dim);
    buf := new Byte[total];
    var o := PutHeader(buf, |entries|, dim);
    ghost var written := Header(|entries|, dim);
    WrittenEnds(entries, dim);
    for i := 0 to |entries|
      invariant written == WrittenUpTo(entries, dim, i)
      invariant o == |written| <= buf.Length && buf[..o] == written
    {
      WrittenNext(entries, dim, i);
      written := written + EncodeEntry(entries[i]);
      o := PutEntry(buf, o, entries[i]);
    }
    assert buf[..] == buf[..o];
  }

  lemma {:induction false} PrefixFits(parts: seq<Bytes>, k: nat)
    requires k <= |parts|
    ensures |Concat(parts[..k])| <= |Concat(parts)|
    decreases |parts|
  {
    if k < |parts| {
      PrefixFits(parts[..|parts| - 1], k);
      assert parts[..|parts| - 1][..k] == parts[..k];
    } else {
      assert parts[..k] == parts;
    }
  }

  // ---------------------------------------------------------------------------
  // decode
  // ---------------------------------------------------------------------------

  /** The payload read entry by entry at a moving offset. */
  method DecodeBuffer(buf: Bytes, parses: Bytes -> bool) returns (r: Result<Decoded>)
    ensures r == Decode(buf, parses)
  {
    if |buf| < HEADER_BYTES {
      return Corrupt(TruncatedHeader);
    }
    if buf[..8] != MAGIC {
      return Corrupt(UnrecognizedMagic);
    }
    var version := GetU32(buf, 8);
    if version != VERSION {
      return Corrupt(UnsupportedVersion(version));
    }
    var count, dim := GetU32(buf, 12), GetU32(buf, 16);
    var entries := ReadEntries(buf, dim, parses, HEADER_BYTES, count, [], EntryReader(buf, dim, parses));
    match entries
    case Corrupt(why) => r := Corrupt(why);
    case Ok(out) => r := Ok(Decoded(out, dim, count));
  }

  /** The entry loop, from any offset and behind any entries read before. */
  method ReadEntries(buf: Bytes, dim: nat, parses: Bytes -> bool, start: nat, count: nat, before: seq<Entry>, ghost read: Reader)
    returns (r: Result<seq<Entry>>)
    requires read == EntryReader(buf, dim, parses)
    ensures r == ReadAll(read, start, count, before)
  {
    var o, out, left := start, before, count;
    while left > 0
      invariant ReadAll(read, start, count, before) == ReadAll(read, o, left, out)
    {
      var step := ReadOne(buf, o, dim, parses);
      match step {
        case Corrupt(why) =>
          return Corrupt(why);
        case Ok(found) =>
          o, out, left := found.next, Put(out, found.entry), left - 1;
      }
    }
    r := Ok(out);
  }

  method ReadOne(buf: Bytes, o: nat, dim: nat, parses: Bytes -> bool) returns (r: Result<Step>)
    ensures r == ReadEntry(buf, o, dim, parses)
  {
    if o + 4 > |buf| {
      return Corrupt(TruncatedIdLength);
    }
    var idLen := GetU32(buf, o);
    var at := o + 4;
    if at + idLen > |buf| {
      return Corrupt(TruncatedId);
    }
    r := ReadBehindId(buf, at + idLen, dim, buf[at..at + idLen], parses);
  }

  /** The meta and the vector behind an id. */
  method ReadBehindId(buf: Bytes, o: nat, dim: nat, id: Bytes, parses: Bytes -> bool) returns (r: Result<Step>)
    requires o <= |buf|
    ensures r == match ReadBlob(buf, o, TruncatedMetaLength, TruncatedMeta)
                 case Corrupt(why) => Corrupt(why)
                 case Ok(meta) =>
                   if meta.bytes != [] && !parses(meta.bytes) then Corrupt(UnparseableMeta)
                   else ReadVector(buf, meta.next, dim, id, meta.bytes)
  {
    var at := o;
    if at + 4 > |buf| {
      return Corrupt(TruncatedMetaLength);
    }
    var metaLen := GetU32(buf, at);
    at := at + 4;
    var meta: Option<Bytes> := None;
    if metaLen > 0 {
      if at + metaLen > |buf| {
        return Corrupt(TruncatedMeta);
      }
      if !parses(buf[at..at + metaLen]) {
        return Corrupt(UnparseableMeta);
      }
      meta := Some(buf[at..at + metaLen]);
      at := at + metaLen;
    }
    if at + dim * 4 > |buf| {
      return Corrupt(TruncatedVector);
    }
    var vec: seq<Word> := [];
    for d := 0 to dim
      invariant vec == ReadWords(buf, at, d)
    {
      vec := vec + [GetU32(buf, at + 4 * d)];
    }
    r := Ok(Step(Entry(id, meta, vec), at + dim * 4));
  }

  ghost predicate Shaped(es: seq<Entry>, dim: nat) {
    DistinctIds(es) && forall e | e in es :: |e.vec| == dim
  }

  lemma PutShaped(out: seq<Entry>, e: Entry, dim: nat)
    requires Shaped(out, dim) && |e.vec| == dim
    ensures Shaped(Put(out, e), dim) && |Put(out, e)| <= |out| + 1
  {
    if k: nat :| k < |out| && out[k].id == e.id {
      PutKnown(out, e, k);
      assert forall x | x in out[k := e] :: x == e || x in out;
    } else {
      PutNew(out, e);
      assert forall x | x in out + [e] :: x == e || x in out;
    }
  }

  ghost predicate ReadsDim(read: Reader, dim: nat) {
    forall o: nat :: read(o).Ok? ==> |read(o).value.entry.vec| == dim
  }

  lemma {:induction false} ReadShape(read: Reader, o: nat, n: nat, dim: nat, out: seq<Entry>)
    requires ReadsDim(read, dim) && Shaped(out, dim) && ReadAll(read, o, n, out).Ok?
    ensures Shaped(ReadAll(read, o, n, out).value, dim) && |ReadAll(read, o, n, out).value| <= |out| + n
    decreases n
  {
    if n > 0 {
      var step := read(o).value;
      PutShaped(out, step.entry, dim);
      ReadShape(read, step.next, n - 1, dim, Put(out, step.entry));
    }
  }

  /** Whatever the bytes: a payload that decodes holds no id twice and only vectors of its dimension. */
  lemma DecodedShape(buf: Bytes, parses: Bytes -> bool)
    requires Decode(buf, parses).Ok?
    ensures var d := Decode(buf, parses).value; Shaped(d.entries, d.dim) && |d.entries| <= d.count
  {
    var dim := GetU32(buf, 16);
    var read := EntryReader(buf, dim, parses);
    assert ReadsDim(read, dim) by {
      forall o: nat | ReadEntry(buf, o, dim, parses).Ok? ensures |ReadEntry(buf, o, dim, parses).value.entry.vec| == dim {}
    }
    ReadShape(read, HEADER_BYTES, GetU32(buf, 12), dim, []);
  }

  // ---------------------------------------------------------------------------
  // The index
  // ---------------------------------------------------------------------------

  datatype Sidecar = Sidecar(embedderId: string, dim: nat, count: nat)

  datatype Refusal = ZeroLength | DimMismatch | EmbedderMismatch | IndexCorrupt(why: Corruption) | SidecarDisagrees

  datatype Outcome = Done | Refused(why: Refusal)

  /** What load makes of a payload and its sidecar, before anything is swapped in. */
  function LoadOutcome(embedderId: string, boundDim: nat, payload: Bytes, sidecar: Sidecar, parses: Bytes -> bool): Outcome {
    if embedderId != "" && sidecar.embedderId != embedderId then Refused(EmbedderMismatch)
    else if boundDim > 0 && sidecar.dim != boundDim then Refused(DimMismatch)
    else
      match Decode(payload, parses)
      case Corrupt(why) => Refused(IndexCorrupt(why))
      case Ok(d) => if d.dim != sidecar.dim || d.count != sidecar.count then Refused(SidecarDisagrees) else Done
  }

  class Store {
    const embedderId: string
    const boundDim: nat
    var entries: seq<Entry>
    var runtimeDim: nat

    function EffectiveDim(): nat
      reads this
    {
      if boundDim > 0 then boundDim else runtimeDim
    }

    /** One dimension, known as soon as there is an entry, and no id twice. */
    ghost predicate Valid()
      reads this
    {
      Shaped(entries, EffectiveDim()) && (entries == [] || EffectiveDim() > 0)
    }

    constructor (embedder: string, dim: nat)
      ensures Valid() && entries == [] && runtimeDim == 0 && embedderId == embedder && boundDim == dim
      ensures EffectiveDim() == dim
    {
      embedderId, boundDim, entries, runtimeDim := embedder, dim, [], 0;
    }

    /** A vector of another dimension never gets in; the first one fixes the dimension of an unbound index. */
    method Upsert(id: Bytes, vec: seq<Word>, meta: Option<Bytes>) returns (r: Outcome)
      requires Valid()
      modifies this
      ensures Valid()
      ensures r == (if vec == [] then Refused(ZeroLength)
                    else if old(EffectiveDim()) > 0 && |vec| != old(EffectiveDim()) then Refused(DimMismatch)
                    else Done)
      ensures boundDim > 0 && vec != [] ==> (r == Done <==> |vec| == boundDim)
      ensures r == Done ==> entries == Put(old(entries), Entry(id, meta, vec)) && EffectiveDim() == |vec|
      ensures r != Done ==> entries == old(entries) && runtimeDim == old(runtimeDim)
    {
      if |vec| == 0 {
        return Refused(ZeroLength);
      }
      var want := EffectiveDim();
      if want > 0 && |vec| != want {
        return Refused(DimMismatch);
      }
      PutShaped(entries, Entry(id, meta, vec), |vec|);
      runtimeDim := |vec|;
      entries := Put(entries, Entry(id, meta, vec));
      r := Done;
    }

    /** The payload and, last, the sidecar that commits it. */
    method Save() returns (payload: Bytes, sidecar: Sidecar)
      requires Valid()
      ensures payload == Encode(Index(entries, EffectiveDim()))
      ensures sidecar == Sidecar(embedderId, EffectiveDim(), |entries|)
    {
      var buf := EncodeBuffer(entries, EffectiveDim());
      payload := buf[..];
      sidecar := Sidecar(embedderId, EffectiveDim(), |entries|);
    }

    /** Everything is validated before anything is swapped in: a refused load changes nothing. */
    method Load(payload: Bytes, sidecar: Sidecar, parses: Bytes -> bool) returns (r: Outcome)
      modifies this
      ensures r == LoadOutcome(embedderId, boundDim, payload, sidecar, parses)
      ensures r != Done ==> entries == old(entries) && runtimeDim == old(runtimeDim)
      ensures r == Done ==>
                && Decode(payload, parses) == Ok(Decoded(entries, sidecar.dim, sidecar.count))
                && EffectiveDim() == sidecar.dim && Shaped(entries, sidecar.dim)
                && (Valid() <==> sidecar.dim > 0 || entries == [])
    {
      if embedderId != "" && sidecar.embedderId != embedderId {
        return Refused(EmbedderMismatch);
      }
      if boundDim > 0 && sidecar.dim != boundDim {
        return Refused(DimMismatch);
      }
      var decoded := DecodeBuffer(payload, parses);
      if decoded.Corrupt? {
        return Refused(IndexCorrupt(decoded.why));
      }
      if decoded.value.dim != sidecar.dim || decoded.value.count != sidecar.count {
        return Refused(SidecarDisagrees);
      }
      DecodedShape(payload, parses);
      entries := decoded.value.entries;
      runtimeDim := sidecar.dim;
      r := Done;
    }
  }

  /** The sidecar was written by the embedder this index is bound to, if it is bound to one. */
  predicate OwnEmbedder(embedderId: string, sidecar: Sidecar) {
    embedderId == "" || sidecar.embedderId == embedderId
  }

  /** And for the dimension it is bound to, if it is bound to one. */
  predicate OwnDimension(boundDim: nat, sidecar: Sidecar) {
    boundDim == 0 || sidecar.dim == boundDim
  }

  /**
   * A load goes through exactly when the sidecar is of this embedder and dimension and the payload
   * decodes to as many vectors of that dimension as it says; a foreign one is told as such first.
   */
  lemma LoadsIff(embedderId: string, boundDim: nat, payload: Bytes, sidecar: Sidecar, parses: Bytes -> bool)
    ensures var r, d := LoadOutcome(embedderId, boundDim, payload, sidecar, parses), Decode(payload, parses);
            && (r == Done <==>
                && OwnEmbedder(embedderId, sidecar) && OwnDimension(boundDim, sidecar)
                && d.Ok? && d.value.dim == sidecar.dim && d.value.count == sidecar.count)
            && (r == Refused(EmbedderMismatch) <==> !OwnEmbedder(embedderId, sidecar))
            && (r == Refused(DimMismatch) <==> OwnEmbedder(embedderId, sidecar) && !OwnDimension(boundDim, sidecar))
  {
  }

  /** What one store saved, another loads, entry for entry, exactly when it is bound to no other embedder and dimension. */
  lemma SavedLoads(x: Index, savedBy: string, embedderId: string, boundDim: nat, parses: Bytes -> bool)
    requires FitsAll(x, parses) && DistinctIds(x.entries)
    ensures var sidecar := Sidecar(savedBy, x.dim, |x.entries|);
            && (LoadOutcome(embedderId, boundDim, Encode(x), sidecar, parses) == Done <==>
                (embedderId == "" || embedderId == savedBy) && (boundDim == 0 || boundDim == x.dim))
            && Decode(Encode(x), parses) == Ok(Decoded(x.entries, x.dim, |x.entries|))
  {
    RoundTrip(x, [], parses);
    assert Encode(x) + [] == Encode(x);
  }

  /** A save cut short before its sidecar's payload was whole is refused, whatever the sidecar says. */
  lemma TornSaveRefused(x: Index, n: nat, embedderId: string, boundDim: nat, sidecar: Sidecar, parses: Bytes -> bool)
    requires FitsAll(x, parses) && n < |Encode(x)|
    ensures LoadOutcome(embedderId, boundDim, Encode(x)[..n], sidecar, parses) != Done
  {
    PrefixRefused(x, n, parses);
  }
}
