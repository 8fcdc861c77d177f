/** Text extraction and fixed-window overlapping chunking of PDF text
    (`PDFProcessor.extract_text` / `chunk_text`, identical in both pipeline versions). */
module Chunking {
  import opened Results
  import opened Text
  import opened Collections

  /** `settings.max_chunk_size` and `settings.chunk_overlap` defaults. */
  const DefaultChunkSize: int := 1000
  const DefaultOverlap: int := 200

  /** Python `value or default` on an optional integer argument: `None` and `0` are both falsy. */
  function OrDefault(value: Option<int>, default: int): int {
    if value.None? || value.value == 0 then default else value.value
  }

  /** Because of `or`, an explicit overlap of 0 is silently turned into the default of 200. */
  lemma ZeroOverlapBecomesDefault(overlap: Option<int>)
    ensures OrDefault(overlap, DefaultOverlap) != 0
    ensures overlap == Some(0) ==> OrDefault(overlap, DefaultOverlap) == 200
  {
  }

  /** The raw window `text[start:start+size]`, with Python's clamping of both ends of a slice. */
  function Window(text: string, start: nat, size: nat): string {
    if start <= |text| then text[start..Min(start + size, |text|)] else []
  }

  /** The effective chunk size and stride `chunk_text` uses for the given arguments. */
  function EffectiveSize(chunkSize: Option<int>): int { OrDefault(chunkSize, DefaultChunkSize) }

  function Stride(chunkSize: Option<int>, overlap: Option<int>): int {
    EffectiveSize(chunkSize) - OrDefault(overlap, DefaultOverlap)
  }

  /** `chunks` are the windows of `text` cut every `step` characters from offset 0, one per offset
      inside the text, each `size` characters long (shorter at the end) and stripped. */
  predicate StrippedChunks(text: string, size: nat, step: nat, chunks: seq<string>)
    requires step > 0
  {
    && |chunks| == CeilDiv(|text|, step)
    && forall k {:trigger chunks[k]} :: 0 <= k < |chunks| ==>
         Offset(k, step) < |text| && chunks[k] == Strip(Window(text, Offset(k, step), size))
  }

  /** Chunks cut one per stride, the last starting inside the text and the next offset past its
      end, are exactly the stripped windows at the offsets `0, step, 2*step, ...` below the length
      of the text. */
  lemma AllChunks(text: string, size: nat, step: nat, chunks: seq<string>)
    requires step > 0
    requires Offset(|chunks|, step) >= |text| && (|chunks| == 0 || Offset(|chunks| - 1, step) < |text|)
    requires forall k {:trigger chunks[k]} :: 0 <= k < |chunks| ==> chunks[k] == Strip(Window(text, Offset(k, step), size))
    ensures StrippedChunks(text, size, step, chunks)
  {
    var n := |chunks|;
    CeilDivUnique(n, |text|, step);
    forall k | 0 <= k < n
      ensures Offset(k, step) < |text|
    {
      CeilDivCovers(|text|, step, k);
    }
  }

  /** Split `text` into windows of `chunk_size` characters whose starts are `chunk_size - overlap` apart,
      each stripped of surrounding whitespace. The loop only terminates when the stride is positive. */
  method ChunkText(text: string, chunkSize: Option<int>, overlap: Option<int>) returns (chunks: seq<string>)
    requires 0 < EffectiveSize(chunkSize) && 0 < Stride(chunkSize, overlap)
    ensures StrippedChunks(text, EffectiveSize(chunkSize), Stride(chunkSize, overlap), chunks)
  {
    var size := EffectiveSize(chunkSize);
    var ov := OrDefault(overlap, DefaultOverlap);
    ghost var step: nat := size - ov;
    chunks := [];
    var start := 0;
    while start < |text|
      invariant start == Offset(|chunks|, step)
      invariant |chunks| == 0 || Offset(|chunks| - 1, step) < |text|
      invariant forall k {:trigger chunks[k]} :: 0 <= k < |chunks| ==>
        chunks[k] == Strip(Window(text, Offset(k, step), size))
      decreases |text| - start
    {
      var end := start + size;
      var chunk := Window(text, start, size);
      OffsetSucc(|chunks|, step);
      chunks := chunks + [Strip(chunk)];
      start := end - ov;
      if start >= |text| {
        break;
      }
    }
    AllChunks(text, size, step, chunks);
  }

  /** Consecutive windows overlap: when window `k` is not cut short by the end of the text, its last
      `size - step` characters (the overlap) are the first characters of window `k + 1`. */
  lemma ConsecutiveWindowsOverlap(text: string, size: nat, step: nat, k: nat)
    requires 0 < step <= size && Offset(k, step) + size <= |text|
    ensures Offset(k, step) < Offset(k + 1, step) <= |text|
    ensures |Window(text, Offset(k + 1, step), size)| >= size - step
    ensures Window(text, Offset(k + 1, step), size)[..size - step] == Window(text, Offset(k, step), size)[step..]
  {
    OffsetSucc(k, step);
  }

  /** With a non-negative overlap the last window reaches the end of the text. */
  lemma {:induction false} LastWindowReachesEnd(len: nat, size: nat, step: nat)
    requires 0 < step <= size && len > 0
    ensures var n := CeilDiv(len, step);
      n > 0 && Offset(n - 1, step) < len <= Offset(n - 1, step) + size
  {
    var n := CeilDiv(len, step);
    CeilDivCovers(len, step, 0);
    CeilDivCovers(len, step, n - 1);
    CeilDivCovers(len, step, n);
    OffsetSucc(n - 1, step);
  }

  /** With a non-negative overlap every character of the text lies in some window: the windows
      cover the text, so no content is skipped. */
  lemma {:induction false} WindowsCoverText(len: nat, size: nat, step: nat, i: nat)
    requires 0 < step <= size && i < len
    ensures var k := i / step; k < CeilDiv(len, step) && Offset(k, step) <= i < Offset(k, step) + size
  {
    var k := i / step;
    assert k * step + i % step == i;
    CeilDivCovers(len, step, k);
    OffsetIsProduct(k, step);
    OffsetSucc(k, step);
  }

  /** Each chunk is a piece of the text: chunking cannot fabricate content. */
  lemma ChunkIsSlice(text: string, start: nat, size: nat)
    requires start <= |text|
    ensures var w := Window(text, start, size);
      Strip(w) == text[start + StripStart(w)..start + StripEnd(w)]
  {
    var w := Window(text, start, size);
    var e := Min(start + size, |text|);
    assert w == text[start..e];
    StripShape(w);
    var a, b := StripStart(w), StripEnd(w);
    assert start + b <= e;
    forall i | 0 <= i < b - a
      ensures w[a..b][i] == text[start + a..start + b][i]
    {
      assert w[a + i] == text[start + a + i];
    }
  }

  /** `extract_text`: append each page's text followed by a newline, then strip the whole. */
  method ExtractText(pages: seq<string>) returns (text: string)
    ensures text == Strip(Join(pages, "\n"))
  {
    var acc := "";
    var i := 0;
    while i < |pages|
      invariant 0 <= i <= |pages|
      invariant acc == if i == 0 then "" else Join(pages[..i], "\n") + "\n"
    {
      if i > 0 {
        JoinAppend(pages[..i], pages[i], "\n");
        assert pages[..i + 1] == pages[..i] + [pages[i]];
      }
      acc := acc + pages[i] + "\n";
      i := i + 1;
    }
    assert pages[..i] == pages;
    if i > 0 {
      StripTrailingNewline(Join(pages, "\n"));
    }
    text := Strip(acc);
  }
}
