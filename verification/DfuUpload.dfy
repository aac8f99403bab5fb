/** Reading the device back with DFU_UPLOAD. */
module DfuUpload {
  import opened ByteSeq
  import opened Dfu

  const BLOCK_NUMBERS: nat := 0x1_0000

  /** The replies to uploads of blocks 0 to k - 1; none of them changes what is uploaded. */
  function Blocks(d: Handler, k: nat): seq<Bytes>
    requires k <= BLOCK_NUMBERS
  {
    if k == 0 then [] else Blocks(d, k - 1) + [UploadBlock(d, k - 1).reply]
  }

  lemma BlockIsNext(data: Bytes, ts: nat, n: nat)
    ensures var start, end := Min(n * ts, |data|), Min((n + 1) * ts, |data|);
            start <= end && end == Min(start + ts, |data|) && data[..start] + data[start..end] == data[..end]
  {
    assert (n + 1) * ts == n * ts + ts;
  }

  /** The first k blocks are the first k * wTransferSize bytes of the source, or all of it. */
  lemma {:induction false} BlocksConcatenate(d: Handler, k: nat)
    requires d.config.upload.Some? && k <= BLOCK_NUMBERS
    ensures var data := d.config.upload.value;
            Concat(Blocks(d, k)) == data[..Min(k * d.config.transferSize, |data|)]
  {
    if k > 0 {
      BlocksConcatenate(d, k - 1);
      BlockIsNext(d.config.upload.value, d.config.transferSize, k - 1);
      ConcatSnoc(Blocks(d, k - 1), UploadBlock(d, k - 1).reply);
    }
  }

  /** Block n is short, and the upload over, exactly when it reaches beyond the end of the source. */
  lemma UploadEndsExactly(d: Handler, n: BlockNumber)
    requires d.config.upload.Some?
    ensures var out, ts := UploadBlock(d, n), d.config.transferSize;
            && out.note.Fine? && |out.reply| <= ts
            && (out.d.state.DfuIdle? <==> |d.config.upload.value| < (n + 1) * ts)
            && (out.d.state.UploadIdle? <==> |d.config.upload.value| >= (n + 1) * ts)
            && out.d == d.(state := out.d.state)
  {
    assert (n + 1) * d.config.transferSize == n * d.config.transferSize + d.config.transferSize;
  }

  /** A host that reads blocks until one is short has the whole source. */
  lemma UploadDelivers(d: Handler, n: BlockNumber)
    requires d.config.upload.Some? && UploadBlock(d, n).d.state.DfuIdle?
    ensures Concat(Blocks(d, n + 1)) == d.config.upload.value
  {
    hide Blocks, Concat, UploadBlock;
    UploadEndsExactly(d, n);
    BlocksConcatenate(d, n + 1);
    var data := d.config.upload.value;
    assert data[..|data|] == data;
  }

  /** The 16-bit block number reaches a short block if and only if the source is shorter than 65536 blocks. */
  lemma UploadCompletesExactly(d: Handler)
    requires d.config.upload.Some?
    ensures (exists n: BlockNumber :: UploadBlock(d, n).d.state.DfuIdle?) <==>
            |d.config.upload.value| < BLOCK_NUMBERS * d.config.transferSize
  {
    hide UploadBlock;
    var ts := d.config.transferSize;
    var last: BlockNumber := BLOCK_NUMBERS - 1;
    UploadEndsExactly(d, last);
    if n: BlockNumber :| UploadBlock(d, n).d.state.DfuIdle? {
      UploadEndsExactly(d, n);
      Grows(n + 1, BLOCK_NUMBERS, ts);
    }
  }

  lemma Grows(a: nat, b: nat, m: nat)
    requires a <= b
    ensures a * m <= b * m
  {
  }
}
