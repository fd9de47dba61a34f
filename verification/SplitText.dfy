/** Overlapping fixed-width windows over a document. */
module SplitText {
  import opened Wrappers
  import opened Orders
  import Text

  /** The chunk size that is not positive. */
  datatype Error = BadChunkSize(size: int)

  lemma StripsToNothing(s: string)
    ensures Text.Strip(s) == "" <==> Text.Blank(s)
  {
    hide Text.LStrip, Text.RStrip, Text.IsSpace;
    var r := Text.LStrip(s);
    var t := Text.RStrip(r);
    if r != "" {
      assert r[0] == s[|s| - |r|];
      assert r[|t|..] == r[..] || t != "";
    } else {
      assert s[..|s| - |r|] == s;
    }
  }

  /** The requested overlap, clamped so that the step stays positive. */
  function Overlap(size: int, overlap: int): (o: int)
    requires size > 0
    ensures 0 <= o < size
  {
    var capped := if overlap <= size - 1 then overlap else size - 1;
    if capped >= 0 then capped else 0
  }

  // --- Windows -------------------------------------------------------------------------------

  datatype Layout = Layout(n: nat, size: int, step: int) {
    predicate Sane() { n > 0 && 0 < step <= size }

    /** 1 + ceil(max(0, n - size) / step). */
    function Count(): int
      requires Sane()
    {
      1 + ((if n > size then n - size else 0) + step - 1) / step
    }

    function Start(i: int): int { i * step }

    function End(i: int): int { if Start(i) + size <= n then Start(i) + size else n }
  }

  /** The last window is the first to reach the end of the text. */
  lemma CountIsExact(l: Layout)
    requires l.Sane()
    ensures l.Count() >= 1
    ensures l.Start(l.Count() - 1) + l.size >= l.n
    ensures l.Count() >= 2 ==> l.Start(l.Count() - 2) + l.size < l.n
  {
    var extra := if l.n > l.size then l.n - l.size else 0;
    var x := extra + l.step - 1;
    var q := x / l.step;
    assert x == q * l.step + x % l.step;
    if q < 0 {
      MulMonotone(q, -1, l.step);
    }
    assert l.Start(q - 1) == l.Start(q) - l.step;
  }

  lemma CountFromLast(l: Layout, k: nat)
    requires l.Sane() && l.Start(k) + l.size >= l.n
    requires k > 0 ==> l.Start(k - 1) + l.size < l.n
    ensures k == l.Count() - 1
  {
    CountIsExact(l);
    var m := l.Count() - 1;
    if k < m {
      MulMonotone(k, m - 1, l.step);
    }
    if m < k {
      MulMonotone(m, k - 1, l.step);
    }
  }

  /** Windows start a step apart and end at the size limit, the last at the end of the text; each
      is longer than the overlap it shares with the one before. */
  lemma WindowBounds(l: Layout, i: nat)
    requires l.Sane() && i < l.Count()
    ensures 0 <= l.Start(i) < l.End(i) <= l.n
    ensures i + 1 < l.Count() ==> l.End(i) == l.Start(i) + l.size < l.n
    ensures i + 1 == l.Count() ==> l.End(i) == l.n
    ensures i > 0 ==> l.End(i - 1) == l.Start(i) + (l.size - l.step) < l.End(i)
  {
    CountIsExact(l);
    var m := l.Count() - 1;
    MulMonotone(0, i, l.step);
    if i < m {
      MulMonotone(i, m - 1, l.step);
    }
    if i > 0 {
      MulMonotone(i - 1, m - 1, l.step);
      assert l.Start(i) == l.Start(i - 1) + l.step;
    }
  }

  function Window(text: string, l: Layout, i: nat): (w: string)
    requires l.Sane() && l.n == |text| && i < l.Count()
    ensures |w| == l.End(i) - l.Start(i) <= l.size
  {
    WindowBounds(l, i);
    text[l.Start(i)..l.End(i)]
  }

  function Windows(text: string, l: Layout, k: nat): (ws: seq<string>)
    requires l.Sane() && l.n == |text| && k <= l.Count()
    ensures |ws| == k && forall i | 0 <= i < k :: ws[i] == Window(text, l, i)
  {
    seq(k, i requires 0 <= i < k => Window(text, l, i))
  }

  function Kept(ws: seq<string>): seq<string> {
    if ws == [] then [] else
      Kept(ws[..|ws| - 1]) + if Text.Blank(ws[|ws| - 1]) then [] else [ws[|ws| - 1]]
  }

  lemma KeptNext(ws: seq<string>, w: string)
    ensures Kept(ws + [w]) == if Text.Blank(w) then Kept(ws) else Kept(ws) + [w]
  {
    assert (ws + [w])[..|ws|] == ws;
  }

  lemma KeptNextWindow(text: string, l: Layout, k: nat)
    requires l.Sane() && l.n == |text| && k < l.Count()
    ensures var w := Window(text, l, k);
            && Kept(Windows(text, l, 0)) == []
            && Kept(Windows(text, l, k + 1)) == if Text.Blank(w) then Kept(Windows(text, l, k))
               else Kept(Windows(text, l, k)) + [w]
  {
    assert Windows(text, l, k + 1) == Windows(text, l, k) + [Window(text, l, k)];
    KeptNext(Windows(text, l, k), Window(text, l, k));
  }

  /** What the splitter promises to return for a non-blank text. */
  function Chunks(text: string, size: int, overlap: int): seq<string>
    requires size > 0 && text != ""
  {
    var l := LayoutOf(text, size, overlap);
    CountIsExact(l);
    Kept(Windows(text, l, l.Count()))
  }

  function LayoutOf(text: string, size: int, overlap: int): (l: Layout)
    requires size > 0 && text != ""
    ensures l.Sane() && l.n == |text|
  {
    Layout(|text|, size, size - Overlap(size, overlap))
  }

  method Split(text: string, size: int, overlap: int) returns (r: Result<seq<string>, Error>)
    ensures Text.Blank(text) ==> r == Ok([])
    ensures !Text.Blank(text) && size <= 0 ==> r == Err(BadChunkSize(size))
    ensures !Text.Blank(text) && size > 0 ==> r == Ok(Chunks(Text.Strip(text), size, overlap))
  {
    hide Kept, Text.Strip, Text.Blank, Layout.Count;
    var cleaned := Text.Strip(text);
    StripsToNothing(text);
    if cleaned == "" {
      return Ok([]);
    }
    if size <= 0 {
      return Err(BadChunkSize(size));
    }
    var step := size - Overlap(size, overlap);
    ghost var l := LayoutOf(cleaned, size, overlap);
    CountIsExact(l);
    assert l.Start(0) == 0;
    KeptNextWindow(cleaned, l, 0);
    ghost var k: nat := 0;
    var out: seq<string> := [];
    var i := 0;
    while i < |cleaned|
      invariant i == l.Start(k) && 0 <= k < l.Count()
      invariant out == Kept(Windows(cleaned, l, k))
      invariant k > 0 ==> l.Start(k - 1) + size < l.n
      invariant i < |cleaned|
      decreases |cleaned| - i
    {
      WindowBounds(l, k);
      var chunk := cleaned[i..if i + size <= |cleaned| then i + size else |cleaned|];
      KeptNextWindow(cleaned, l, k);
      StripsToNothing(chunk);
      if Text.Strip(chunk) != "" {
        out := out + [chunk];
      }
      if i + size >= |cleaned| {
        CountFromLast(l, k);
        return Ok(out);
      }
      i := i + step;
      k := k + 1;
      assert l.Start(k) == l.Start(k - 1) + step;
    }
    r := Ok(out);
  }

  /** With an overlap below the size each window starts where the one before ends less that overlap; one that
      is negative counts as none, and a larger one as all but one character. */
  lemma WindowsAsAsked(text: string, size: int, overlap: int, i: nat)
    requires size > 0 && text != "" && i < LayoutOf(text, size, overlap).Count()
    ensures var o := if overlap < 0 then 0 else if overlap < size then overlap else size - 1;
            var start := i * (size - o);
            && 0 <= start < |text|
            && Window(text, LayoutOf(text, size, overlap), i)
               == text[start..if start + size <= |text| then start + size else |text|]
            && (i > 0 ==> start == (i - 1) * (size - o) + size - o)
  {
    WindowBounds(LayoutOf(text, size, overlap), i);
  }

  // --- What the chunks are good for ----------------------------------------------------------

  lemma {:induction false} KeptContains(ws: seq<string>, i: nat)
    requires i < |ws| && !Text.Blank(ws[i])
    ensures ws[i] in Kept(ws)
  {
    if i < |ws| - 1 {
      KeptContains(ws[..|ws| - 1], i);
    }
  }

  /** Every visible character lies in a chunk that is returned. */
  lemma InkIsCovered(text: string, size: int, overlap: int, j: nat)
    requires size > 0 && j < |text| && !Text.IsSpace(text[j])
    ensures var l := LayoutOf(text, size, overlap);
            exists i: nat :: i < l.Count() && l.Start(i) <= j < l.End(i)
                && Window(text, l, i) in Chunks(text, size, overlap)
  {
    var l := LayoutOf(text, size, overlap);
    CountIsExact(l);
    var i := WindowOf(l, j, 0);
    var w := Window(text, l, i);
    assert w[j - l.Start(i)] == text[j];
    KeptContains(Windows(text, l, l.Count()), i);
  }

  ghost function WindowOf(l: Layout, j: nat, i: nat): (k: nat)
    requires l.Sane() && j < l.n && i < l.Count() && l.Start(i) <= j
    ensures k < l.Count() && l.Start(k) <= j < l.End(k)
    decreases l.Count() - i
  {
    WindowBounds(l, i);
    if j < l.End(i) then i
    else
      WindowBounds(l, i + 1);
      WindowOf(l, j, i + 1)
  }

  /** The first chunk, then each later one without what it shares with its predecessor. */
  function Rebuilt(chunks: seq<string>, shared: nat): string
    requires forall i | 0 < i < |chunks| :: |chunks[i]| >= shared
  {
    if |chunks| == 0 then "" else if |chunks| == 1 then chunks[0] else
      Rebuilt(chunks[..|chunks| - 1], shared) + chunks[|chunks| - 1][shared..]
  }

  lemma RebuiltNext(chunks: seq<string>, c: string, shared: nat)
    requires chunks != [] && |c| >= shared && forall i | 0 < i < |chunks| :: |chunks[i]| >= shared
    ensures Rebuilt(chunks + [c], shared) == Rebuilt(chunks, shared) + c[shared..]
  {
    assert (chunks + [c])[..|chunks|] == chunks;
  }

  lemma WindowLonger(text: string, l: Layout, i: nat)
    requires l.Sane() && l.n == |text| && i < l.Count()
    ensures i > 0 ==> |Window(text, l, i)| > l.size - l.step
    ensures l.Count() > 1 ==> |Window(text, l, i)| > l.size - l.step
  {
    WindowBounds(l, i);
    if i == 0 && l.Count() > 1 {
      WindowBounds(l, 1);
    }
  }

  lemma {:induction false} WindowsRebuild(text: string, l: Layout, k: nat)
    requires l.Sane() && l.n == |text| && 1 <= k <= l.Count()
    ensures forall i | 0 < i < k :: |Windows(text, l, k)[i]| > l.size - l.step
    ensures 0 <= l.End(k - 1) <= |text|
    ensures Rebuilt(Windows(text, l, k), l.size - l.step) == text[..l.End(k - 1)]
  {
    hide Layout.Count, Layout.Start, Layout.End, Window, Rebuilt;
    forall i | 0 < i < k ensures |Windows(text, l, k)[i]| > l.size - l.step {
      WindowLonger(text, l, i);
    }
    if k > 1 {
      var shared, w := l.size - l.step, Window(text, l, k - 1);
      var before := Windows(text, l, k - 1);
      WindowsRebuild(text, l, k - 1);
      WindowAdds(text, l, k - 1);
      assert Windows(text, l, k) == before + [w];
      WindowLonger(text, l, k - 1);
      RebuiltNext(before, w, shared);
    } else {
      FirstWindow(text, l);
      OneChunk(Windows(text, l, 1), l.size - l.step);
    }
  }

  lemma OneChunk(chunks: seq<string>, shared: nat)
    requires |chunks| == 1
    ensures Rebuilt(chunks, shared) == chunks[0]
  {
  }

  lemma WindowAdds(text: string, l: Layout, i: nat)
    requires l.Sane() && l.n == |text| && 0 < i < l.Count()
    ensures 0 <= l.End(i - 1) <= l.End(i) <= |text| && |Window(text, l, i)| >= l.size - l.step
    ensures text[..l.End(i - 1)] + Window(text, l, i)[l.size - l.step..] == text[..l.End(i)]
  {
    WindowBounds(l, i);
    assert Window(text, l, i)[l.size - l.step..] == text[l.End(i - 1)..l.End(i)];
  }

  lemma FirstWindow(text: string, l: Layout)
    requires l.Sane() && l.n == |text|
    ensures l.Count() >= 1 && 0 <= l.End(0) <= |text| && Window(text, l, 0) == text[..l.End(0)]
  {
    CountIsExact(l);
    WindowBounds(l, 0);
  }

  /** Nothing is dropped exactly when no window is blank. */
  lemma {:induction false} KeptAllIff(ws: seq<string>)
    ensures |Kept(ws)| <= |ws|
    ensures (forall i | 0 <= i < |ws| :: !Text.Blank(ws[i])) <==> Kept(ws) == ws
  {
    hide Text.Blank;
    if ws != [] {
      var init, last := ws[..|ws| - 1], ws[|ws| - 1];
      KeptAllIff(init);
      assert ws == init + [last];
      AllInkNext(init, last);
      KeptNext(init, last);
      if Kept(ws) == ws && !Text.Blank(last) {
        assert (Kept(init) + [last])[..|Kept(init)|] == Kept(init);
      }
    }
  }

  lemma AllInkNext(ws: seq<string>, w: string)
    ensures (forall i | 0 <= i < |ws + [w]| :: !Text.Blank((ws + [w])[i]))
            <==> !Text.Blank(w) && forall i | 0 <= i < |ws| :: !Text.Blank(ws[i])
  {
    hide Text.Blank;
    assert (ws + [w])[|ws|] == w;
    assert forall i | 0 <= i < |ws| :: (ws + [w])[i] == ws[i];
  }

  predicate AllLonger(chunks: seq<string>, shared: nat) {
    forall i | 0 <= i < |chunks| :: |chunks[i]| > shared
  }

  /** How many characters the chunks have beyond what each may share. */
  function Excess(chunks: seq<string>, shared: nat): int {
    if chunks == [] then 0 else Excess(chunks[..|chunks| - 1], shared) + |chunks[|chunks| - 1]| - shared
  }

  lemma {:induction false} RebuiltLength(chunks: seq<string>, shared: nat)
    requires chunks != [] && AllLonger(chunks, shared)
    ensures |Rebuilt(chunks, shared)| == Excess(chunks, shared) + shared
  {
    if |chunks| > 1 {
      RebuiltLength(chunks[..|chunks| - 1], shared);
    } else {
      assert Excess(chunks[..0], shared) == 0;
    }
  }

  lemma ExcessNext(chunks: seq<string>, c: string, shared: nat)
    ensures Excess(chunks + [c], shared) == Excess(chunks, shared) + |c| - shared
  {
    assert (chunks + [c])[..|chunks|] == chunks;
  }

  lemma {:induction false} DroppingShortens(ws: seq<string>, shared: nat)
    requires AllLonger(ws, shared)
    ensures AllLonger(Kept(ws), shared)
    ensures Excess(Kept(ws), shared) <= Excess(ws, shared)
    ensures Kept(ws) != ws ==> Excess(Kept(ws), shared) < Excess(ws, shared)
  {
    hide Kept, Excess, Text.Blank;
    assert Kept([]) == [] by { KeptAllIff([]); }
    if ws != [] {
      var init, last := ws[..|ws| - 1], ws[|ws| - 1];
      DroppingShortens(init, shared);
      assert ws == init + [last];
      KeptNext(init, last);
      ExcessNext(init, last, shared);
      ExcessNext(Kept(init), last, shared);
    }
  }

  /** The chunks give the text back exactly when no window of it is blank. */
  lemma RebuildsIff(text: string, size: int, overlap: int)
    requires size > 0 && text != ""
    ensures var l, chunks, shared := LayoutOf(text, size, overlap), Chunks(text, size, overlap), Overlap(size, overlap);
            && (forall i | 0 < i < |chunks| :: |chunks[i]| >= shared)
            && (Rebuilt(chunks, shared) == text <==> forall i | 0 <= i < l.Count() :: !Text.Blank(Window(text, l, i)))
  {
    hide Text.Blank, Excess, Overlap, Layout.Start, Layout.Count;
    var l, shared := LayoutOf(text, size, overlap), Overlap(size, overlap);
    CountIsExact(l);
    var ws := Windows(text, l, l.Count());
    KeptAllIff(ws);
    WindowsRebuild(text, l, l.Count());
    WindowBounds(l, l.Count() - 1);
    assert text[..|text|] == text;
    if l.Count() > 1 && Kept(ws) != ws {
      forall i | 0 <= i < |ws| ensures |ws[i]| > shared {
        WindowLonger(text, l, i);
      }
      DroppingShortens(ws, shared);
      RebuiltLength(ws, shared);
      if Kept(ws) != [] {
        RebuiltLength(Kept(ws), shared);
      }
    }
  }
}
