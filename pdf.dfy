/**
 * The text chunker of backend/src/services/pdf.ts: a fixed window of 1600
 * characters that advances by 1400, so that consecutive windows share 200
 * characters; windows holding only whitespace are dropped, and if nothing is
 * left the whole text is returned as the single chunk.
 *
 * The raw windows are specified by position (`Window`), the loop of the
 * source is the method `ChunkText`, and the lemmas below state coverage,
 * overlap, the window count and the fallback.
 */
module Pdf {
  import opened Text

  const ChunkSize: nat := 1600
  const ChunkOverlap: nat := 200
  /** How far `start` advances after each window. */
  const Stride: nat := ChunkSize - ChunkOverlap

  function Min(a: nat, b: nat): nat { if a <= b then a else b }

  /**
   * How many windows the loop emits for a text of length `n`: none for the
   * empty text, one up to 1600 characters, otherwise ceil((n - 1600) / 1400) + 1.
   */
  function NumWindows(n: nat): nat {
    if n == 0 then 0
    else if n <= ChunkSize then 1
    else (n - ChunkSize + Stride - 1) / Stride + 1
  }

  /**
   * Window `k` is emitted exactly when it is the first window of a non-empty
   * text, or when window `k - 1` stopped short of the end of the text.
   */
  lemma NumWindowsCounts(n: nat, k: nat)
    ensures k < NumWindows(n) <==> (n > 0 && (k == 0 || (k - 1) * Stride + ChunkSize < n))
  {
    if n > ChunkSize && k > 0 {
      var q := (n - ChunkSize + Stride - 1) / Stride;
      assert Stride * q <= n - ChunkSize + Stride - 1 < Stride * q + Stride;
      if k - 1 < q {
        assert (k - 1) * Stride <= (q - 1) * Stride;
      } else {
        assert (k - 1) * Stride >= q * Stride;
      }
    }
  }

  /** Where window `k` ends: 1600 characters after it starts, or at the end of the text. */
  function WindowEnd(n: nat, k: nat): nat { Min(k * Stride + ChunkSize, n) }

  /** Every emitted window starts inside the text (or at 0 for the empty text). */
  lemma WindowStartInside(n: nat, k: nat)
    requires k < NumWindows(n)
    ensures k * Stride < n
    ensures k * Stride < WindowEnd(n, k)
  {
    NumWindowsCounts(n, k);
  }

  /** Raw window `k`: `text.slice(k * 1400, min(k * 1400 + 1600, text.length))`. */
  function Window(text: string, k: nat): (w: string)
    requires k < NumWindows(|text|)
    ensures |w| <= ChunkSize
  {
    WindowStartInside(|text|, k);
    text[k * Stride..WindowEnd(|text|, k)]
  }

  /** All the windows the loop pushes, in order. */
  function RawWindows(text: string): (ws: seq<string>)
    ensures |ws| == NumWindows(|text|)
  {
    seq(NumWindows(|text|), k requires 0 <= k < NumWindows(|text|) => Window(text, k))
  }

  /** The filter's test, `c.trim().length > 0`. */
  predicate HasContent(c: string) { |Trim(c)| > 0 }

  /** `xs.filter(p)`: the elements satisfying `p`, in their original order. */
  function Filter<T>(xs: seq<T>, p: T -> bool): (r: seq<T>)
    ensures |r| <= |xs|
    ensures forall j :: 0 <= j < |r| ==> p(r[j]) && r[j] in xs
    ensures forall i :: 0 <= i < |xs| && p(xs[i]) ==> xs[i] in r
  {
    if xs == [] then []
    else
      var init := xs[..|xs| - 1];
      assert forall i :: 0 <= i < |xs| - 1 ==> xs[i] == init[i];
      Filter(init, p) + (if p(xs[|xs| - 1]) then [xs[|xs| - 1]] else [])
  }

  /** The positions in `xs` of the elements `Filter` keeps, in increasing order. */
  function KeptIndices<T>(xs: seq<T>, p: T -> bool): (r: seq<nat>)
    ensures forall j :: 0 <= j < |r| ==> r[j] < |xs| && p(xs[r[j]])
    ensures forall j, j' :: 0 <= j < j' < |r| ==> r[j] < r[j']
    ensures forall i :: 0 <= i < |xs| && p(xs[i]) ==> i in r
  {
    if xs == [] then []
    else
      var init := xs[..|xs| - 1];
      var rest := KeptIndices(init, p);
      assert forall j :: 0 <= j < |rest| ==> xs[rest[j]] == init[rest[j]];
      if p(xs[|xs| - 1]) then rest + [|xs| - 1] else rest
  }

  /** `Filter` keeps exactly the elements at `KeptIndices`, in their original order. */
  lemma {:induction false} FilterAt<T>(xs: seq<T>, p: T -> bool)
    ensures |Filter(xs, p)| == |KeptIndices(xs, p)|
    ensures forall j :: 0 <= j < |Filter(xs, p)| ==> Filter(xs, p)[j] == xs[KeptIndices(xs, p)[j]]
  {
    if xs != [] {
      var init := xs[..|xs| - 1];
      FilterAt(init, p);
      var f, ix := Filter(init, p), KeptIndices(init, p);
      forall j | 0 <= j < |Filter(xs, p)|
        ensures Filter(xs, p)[j] == xs[KeptIndices(xs, p)[j]]
      {
        if j < |f| {
          assert Filter(xs, p)[j] == f[j] == init[ix[j]];
          assert KeptIndices(xs, p)[j] == ix[j];
        }
      }
    }
  }

  /** Nothing is kept when no element satisfies `p`. */
  lemma {:induction false} FilterNone<T>(xs: seq<T>, p: T -> bool)
    requires forall i :: 0 <= i < |xs| ==> !p(xs[i])
    ensures Filter(xs, p) == []
  {
    if xs != [] {
      FilterNone(xs[..|xs| - 1], p);
    }
  }

  /** `chunks.filter((c) => c.trim().length > 0)`. */
  function FilterContent(xs: seq<string>): seq<string> {
    Filter(xs, HasContent)
  }

  /** What `chunkText` returns: the windows with content, or `[text]` when there are none. */
  function Chunks(text: string): seq<string> {
    var kept := FilterContent(RawWindows(text));
    if |kept| > 0 then kept else [text]
  }

  /** `chunkText`: the while loop pushing windows, then the filter and the fallback. */
  method ChunkText(text: string) returns (result: seq<string>)
    ensures result == Chunks(text)
    ensures |result| > 0
  {
    var chunks: seq<string> := [];
    var start: nat := 0;
    ghost var k: nat := 0;
    while start < |text|
      invariant start == k * Stride
      invariant k == 0 || (k - 1) * Stride + ChunkSize < |text|
      invariant k <= NumWindows(|text|)
      invariant chunks == RawWindows(text)[..k]
      decreases |text| - start
    {
      NumWindowsCounts(|text|, k);
      var end := Min(start + ChunkSize, |text|);
      chunks := chunks + [text[start..end]];
      assert chunks == RawWindows(text)[..k + 1];
      if end == |text| {
        NumWindowsCounts(|text|, k + 1);
        assert chunks == RawWindows(text);
        break;
      }
      start := start + Stride;
      k := k + 1;
    }
    NumWindowsCounts(|text|, k);
    assert chunks == RawWindows(text);
    var filtered := FilterContent(chunks);
    result := if |filtered| > 0 then filtered else [text];
  }

  /** Every raw window starts at a multiple of 1400 and is at most 1600 characters long. */
  lemma RawWindowShape(text: string, k: nat)
    requires k < |RawWindows(text)|
    ensures k * Stride < |text|
    ensures RawWindows(text)[k] == text[k * Stride..WindowEnd(|text|, k)]
    ensures |RawWindows(text)[k]| <= ChunkSize
  {
    WindowStartInside(|text|, k);
  }

  /**
   * Every window but the last is a full 1600 characters, and its last 200
   * characters are the first 200 of the next window.
   */
  lemma WindowsOverlap(text: string, k: nat)
    requires k + 1 < NumWindows(|text|)
    ensures |Window(text, k)| == ChunkSize
    ensures Window(text, k)[Stride..] == Window(text, k + 1)[..ChunkOverlap]
  {
    NumWindowsCounts(|text|, k + 1);
    WindowStartInside(|text|, k + 1);
    var a, b := Window(text, k), Window(text, k + 1);
    assert a == text[k * Stride..k * Stride + ChunkSize];
    assert b == text[(k + 1) * Stride..WindowEnd(|text|, k + 1)];
    assert |b| > ChunkOverlap;
    assert a[Stride..] == text[(k + 1) * Stride..(k + 1) * Stride + ChunkOverlap] == b[..ChunkOverlap];
  }

  /** The last window of a non-empty text ends exactly at its last character. */
  lemma LastWindowReachesEnd(text: string)
    requires |text| > 0
    ensures var last := NumWindows(|text|) - 1;
      WindowEnd(|text|, last) == |text| && last * Stride + |Window(text, last)| == |text|
  {
    var last := NumWindows(|text|) - 1;
    NumWindowsCounts(|text|, last + 1);
    WindowStartInside(|text|, last);
  }

  /** `s` without its first `ChunkOverlap` characters. */
  function DropOverlap(s: string): string {
    if |s| >= ChunkOverlap then s[ChunkOverlap..] else ""
  }

  /** Concatenates windows, dropping from each window after the first the part it shares with the one before. */
  function Stitch(ws: seq<string>): string {
    if |ws| == 0 then ""
    else if |ws| == 1 then ws[0]
    else Stitch(ws[..|ws| - 1]) + DropOverlap(ws[|ws| - 1])
  }

  lemma {:induction false} StitchPrefix(text: string, k: nat)
    requires 1 <= k <= NumWindows(|text|)
    ensures Stitch(RawWindows(text)[..k]) == text[..WindowEnd(|text|, k - 1)]
  {
    var ws := RawWindows(text);
    if k == 1 {
      assert ws[..1] == [Window(text, 0)];
    } else {
      StitchPrefix(text, k - 1);
      assert ws[..k][..k - 1] == ws[..k - 1];
      NumWindowsCounts(|text|, k - 1);
      WindowStartInside(|text|, k - 1);
      var w := Window(text, k - 1);
      var prevEnd := WindowEnd(|text|, k - 2);
      assert prevEnd == (k - 1) * Stride + ChunkOverlap;
      assert w == text[(k - 1) * Stride..WindowEnd(|text|, k - 1)];
      assert DropOverlap(w) == text[prevEnd..WindowEnd(|text|, k - 1)];
      assert text[..prevEnd] + text[prevEnd..WindowEnd(|text|, k - 1)] == text[..WindowEnd(|text|, k - 1)];
    }
  }

  /** Removing the overlaps from the raw windows and concatenating them gives back the text. */
  lemma StitchRawWindows(text: string)
    ensures Stitch(RawWindows(text)) == text
  {
    if |text| > 0 {
      var n := NumWindows(|text|);
      StitchPrefix(text, n);
      assert RawWindows(text)[..n] == RawWindows(text);
      LastWindowReachesEnd(text);
      assert text[..|text|] == text;
    }
  }

  lemma HasContentIsNotBlank(c: string)
    ensures HasContent(c) <==> !IsBlank(c)
  {
  }

  /** Character `i` of the text lies inside some raw window. */
  lemma CoveredByWindow(text: string, i: nat) returns (k: nat)
    requires i < |text|
    ensures k < NumWindows(|text|)
    ensures k * Stride <= i < WindowEnd(|text|, k)
  {
    var last := NumWindows(|text|) - 1;
    LastWindowReachesEnd(text);
    if i / Stride <= last {
      k := i / Stride;
      NumWindowsCounts(|text|, k);
    } else {
      k := last;
      assert k * Stride <= (i / Stride) * Stride <= i;
    }
  }

  /** In a whitespace-only text every raw window is whitespace only, so the filter keeps nothing. */
  lemma BlankTextFiltersToNothing(text: string)
    requires IsBlank(text)
    ensures FilterContent(RawWindows(text)) == []
  {
    var ws := RawWindows(text);
    forall k | 0 <= k < |ws| ensures !HasContent(ws[k]) {
      RawWindowShape(text, k);
      HasContentIsNotBlank(ws[k]);
      assert forall j :: 0 <= j < |ws[k]| ==> ws[k][j] == text[k * Stride + j];
    }
    FilterNone(ws, HasContent);
  }

  /** A non-whitespace character lies in some window, which the filter therefore keeps. */
  lemma ContentTextKeepsAWindow(text: string)
    requires !IsBlank(text)
    ensures FilterContent(RawWindows(text)) != []
  {
    var ws := RawWindows(text);
    var i :| 0 <= i < |text| && !IsWhitespace(text[i]);
    var k := CoveredByWindow(text, i);
    RawWindowShape(text, k);
    var w := ws[k];
    assert w[i - k * Stride] == text[i];
    HasContentIsNotBlank(w);
    assert w in FilterContent(ws);
  }

  /** The filter removes every raw window exactly when the text holds only whitespace. */
  lemma FallbackIffBlank(text: string)
    ensures FilterContent(RawWindows(text)) == [] <==> IsBlank(text)
  {
    if IsBlank(text) {
      BlankTextFiltersToNothing(text);
    } else {
      ContentTextKeepsAWindow(text);
    }
  }

  /** `chunkText` never returns an empty list. */
  lemma ChunksNonEmpty(text: string)
    ensures |Chunks(text)| > 0
  {
  }

  /** Whitespace-only text, the empty text included, comes back whole as the one chunk. */
  lemma {:induction false} BlankTextIsOneChunk(text: string)
    requires IsBlank(text)
    ensures Chunks(text) == [text]
  {
    FallbackIffBlank(text);
  }

  lemma EmptyTextIsOneEmptyChunk()
    ensures Chunks("") == [""]
  {
    BlankTextIsOneChunk("");
  }

  /**
   * A text with some non-whitespace character is cut into windows with
   * content, each at most 1600 characters, each the raw window at an index
   * that grows along the result, so the chunks keep the text's order.
   */
  lemma ContentChunksInOrder(text: string)
    requires !IsBlank(text)
    ensures var idx := KeptIndices(RawWindows(text), HasContent);
      && Chunks(text) == FilterContent(RawWindows(text))
      && |Chunks(text)| == |idx|
      && (forall j :: 0 <= j < |idx| ==>
            (&& idx[j] < NumWindows(|text|)
             && Chunks(text)[j] == Window(text, idx[j])
             && HasContent(Chunks(text)[j])
             && |Chunks(text)[j]| <= ChunkSize))
      && (forall j, j' :: 0 <= j < j' < |idx| ==> idx[j] < idx[j'])
  {
    FallbackIffBlank(text);
    FilterAt(RawWindows(text), HasContent);
  }

  /** A text of at most 1600 characters with some content is returned as it is. */
  lemma ShortTextIsOneChunk(text: string)
    requires |text| <= ChunkSize && !IsBlank(text)
    ensures Chunks(text) == [text]
  {
    var ws := RawWindows(text);
    assert ws == [text[0..|text|]];
    assert text[0..|text|] == text;
    HasContentIsNotBlank(text);
    assert FilterContent(ws) == Filter([], HasContent) + [text];
  }

  /** A text of 2000 characters gives the windows [0, 1600) and [1400, 2000). */
  lemma TwoThousandCharacters(text: string)
    requires |text| == 2000
    ensures RawWindows(text) == [text[0..1600], text[1400..2000]]
  {
    assert NumWindows(2000) == 2;
  }
}
