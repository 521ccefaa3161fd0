/** Where each field of an encoded vector index lies, byte by byte. */
module VectorLayout {
  import opened Orders
  import opened VectorCodec

  /** Four bytes, the lowest first, hold this number. */
  predicate WordAt(buf: Bytes, o: nat, n: nat) {
    && o + 4 <= |buf|
    && buf[o] as nat + buf[o + 1] as nat * 0x100 + buf[o + 2] as nat * 0x1_0000 + buf[o + 3] as nat * 0x100_0000 == n
  }

  predicate TextAt(buf: Bytes, o: nat, text: Bytes) {
    o + |text| <= |buf| && buf[o..o + |text|] == text
  }

  ghost predicate WordsAt(buf: Bytes, o: nat, vec: seq<Word>) {
    forall d: nat | d < |vec| :: WordAt(buf, o + 4 * d, vec[d])
  }

  /** Length, id, length, meta text and the words of the vector. */
  ghost predicate FieldsAt(buf: Bytes, o: nat, id: Bytes, meta: Bytes, vec: seq<Word>) {
    && WordAt(buf, o, |id|) && TextAt(buf, o + 4, id)
    && WordAt(buf, o + 4 + |id|, |meta|) && TextAt(buf, o + 8 + |id|, meta)
    && WordsAt(buf, o + 8 + |id| + |meta|, vec)
  }

  /** A missing meta is an empty text. */
  ghost predicate EntryAt(buf: Bytes, o: nat, e: Entry) {
    FieldsAt(buf, o, e.id, if e.meta.Some? then e.meta.value else [], e.vec)
  }

  function EntrySize(e: Entry): nat {
    8 + |e.id| + (if e.meta.Some? then |e.meta.value| else 0) + 4 * |e.vec|
  }

  /** An entry starts where the ones before it end, the first behind the header of 20 bytes. */
  function StartOf(es: seq<Entry>, k: nat): (start: nat)
    requires k <= |es|
    ensures start >= 20
  {
    if k == 0 then 20 else StartOf(es, k - 1) + EntrySize(es[k - 1])
  }

  predicate EntryFits(e: Entry) {
    |e.id| < WORD_LIMIT && |MetaBytes(e)| < WORD_LIMIT
  }

  lemma WordBack(buf: Bytes, o: nat, n: Word)
    requires Has(buf, o, U32(n))
    ensures WordAt(buf, o, n)
  {
    GetBack(buf, o, n);
  }

  lemma {:induction false} WordsBack(buf: Bytes, o: nat, vec: seq<Word>)
    requires Has(buf, o, EncodeWords(vec))
    ensures WordsAt(buf, o, vec)
    decreases |vec|
  {
    if vec != [] {
      var init, last := vec[..|vec| - 1], vec[|vec| - 1];
      HasBoth(buf, o, EncodeWords(init), U32(last));
      WordsBack(buf, o, init);
      WordBack(buf, o + 4 * |init|, last);
      forall d: nat | d < |vec| ensures WordAt(buf, o + 4 * d, vec[d]) {
        if d < |init| { assert vec[d] == init[d]; }
      }
    }
  }

  lemma BlobBack(buf: Bytes, o: nat, text: Bytes)
    requires Has(buf, o, EncodeBlob(text)) && |text| < WORD_LIMIT
    ensures WordAt(buf, o, |text|) && TextAt(buf, o + 4, text)
  {
    HasBoth(buf, o, U32(|text|), text);
    WordBack(buf, o, |text|);
  }

  lemma FieldsBack(buf: Bytes, o: nat, id: Bytes, meta: Bytes, vec: seq<Word>)
    requires Has(buf, o, EncodeBlob(id) + EncodeBlob(meta) + EncodeWords(vec)) && |id| < WORD_LIMIT && |meta| < WORD_LIMIT
    ensures FieldsAt(buf, o, id, meta, vec)
  {
    HasBoth(buf, o, EncodeBlob(id) + EncodeBlob(meta), EncodeWords(vec));
    HasBoth(buf, o, EncodeBlob(id), EncodeBlob(meta));
    BlobBack(buf, o, id);
    BlobBack(buf, o + 4 + |id|, meta);
    WordsBack(buf, o + 8 + |id| + |meta|, vec);
  }

  lemma EntryBack(buf: Bytes, o: nat, e: Entry)
    requires Has(buf, o, EncodeEntry(e)) && EntryFits(e)
    ensures EntryAt(buf, o, e)
  {
    FieldsBack(buf, o, e.id, MetaBytes(e), e.vec);
  }

  lemma {:induction false} PartBack(buf: Bytes, o: nat, es: seq<Entry>, k: nat)
    requires k < |es| && o >= 20 && Has(buf, o, EncodeEntries(es))
    ensures Has(buf, o + StartOf(es, k) - 20, EncodeEntry(es[k]))
    decreases |es|
  {
    var init, last := es[..|es| - 1], es[|es| - 1];
    assert es == init + [last];
    EntriesSnoc(init, last);
    HasBoth(buf, o, EncodeEntries(init), EncodeEntry(last));
    StartsAgree(init, last, k);
    if k < |init| {
      PartBack(buf, o, init, k);
    } else {
      StartsEnd(init);
    }
  }

  lemma {:induction false} StartsEnd(es: seq<Entry>)
    ensures StartOf(es, |es|) == 20 + |EncodeEntries(es)|
    decreases |es|
  {
    if es != [] {
      var init, last := es[..|es| - 1], es[|es| - 1];
      assert es == init + [last];
      EntriesSnoc(init, last);
      StartsEnd(init);
      StartsAgree(init, last, |init|);
    }
  }

  lemma EntriesSnoc(init: seq<Entry>, last: Entry)
    ensures EncodeEntries(init + [last]) == EncodeEntries(init) + EncodeEntry(last)
  {
    assert EntryParts(init + [last])[..|init|] == EntryParts(init);
  }

  lemma {:induction false} StartsAgree(init: seq<Entry>, last: Entry, k: nat)
    requires k <= |init|
    ensures StartOf(init + [last], k) == StartOf(init, k)
  {
    if k > 0 { StartsAgree(init, last, k - 1); }
  }

  /**
   * An encoding starts with the ASCII of THA2VIDX, version 1, the number of entries and the
   * dimension, lowest byte first; then come the entries in order, each where the one before ends.
   */
  lemma EncodedLayout(x: Index)
    requires |x.entries| < WORD_LIMIT && x.dim < WORD_LIMIT && forall e | e in x.entries :: EntryFits(e)
    ensures var buf := Encode(x);
            && TextAt(buf, 0, [84, 72, 65, 50, 86, 73, 68, 88])
            && WordAt(buf, 8, 1) && WordAt(buf, 12, |x.entries|) && WordAt(buf, 16, x.dim)
            && (forall k: nat | k < |x.entries| :: EntryAt(buf, StartOf(x.entries, k), x.entries[k]))
            && |buf| == StartOf(x.entries, |x.entries|)
  {
    var buf, header, body := Encode(x), Header(|x.entries|, x.dim), EncodeEntries(x.entries);
    assert Has(buf, 0, header) && Has(buf, 20, body) by {
      assert buf == header + body;
      HasBoth(buf, 0, header, body);
    }
    HeaderFields(buf, |x.entries|, x.dim);
    forall k: nat | k < |x.entries| ensures EntryAt(buf, StartOf(x.entries, k), x.entries[k]) {
      PartBack(buf, 20, x.entries, k);
      EntryBack(buf, StartOf(x.entries, k), x.entries[k]);
    }
    StartsEnd(x.entries);
  }

  lemma HeaderFields(buf: Bytes, count: nat, dim: nat)
    requires Has(buf, 0, Header(count, dim)) && count < WORD_LIMIT && dim < WORD_LIMIT
    ensures TextAt(buf, 0, [84, 72, 65, 50, 86, 73, 68, 88])
    ensures WordAt(buf, 8, 1) && WordAt(buf, 12, count) && WordAt(buf, 16, dim)
  {
    HasBoth(buf, 0, MAGIC + U32(VERSION) + U32(count), U32(dim));
    HasBoth(buf, 0, MAGIC + U32(VERSION), U32(count));
    HasBoth(buf, 0, MAGIC, U32(VERSION));
    WordBack(buf, 8, VERSION);
    WordBack(buf, 12, count);
    WordBack(buf, 16, dim);
  }
}
