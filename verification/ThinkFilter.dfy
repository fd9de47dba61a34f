/** The streaming splitter that pulls reasoning text in think tags out of a model's answer. */
module ThinkFilter {

  const OPEN := "<think>"
  const CLOSE := "</think>"

  /** Case folding, one character at a time. */
  type Fold = char -> char

  datatype Kind = Token | Thought

  datatype Piece = Piece(kind: Kind, text: string)

  /** One output character and where it went. */
  datatype Mark = Mark(kind: Kind, c: char)

  function KindOf(inThink: bool): Kind { if inThink then Thought else Token }

  /** The tag that ends the current mode. */
  function NextTag(inThink: bool): (tag: string)
    ensures tag != ""
  {
    if inThink then CLOSE else OPEN
  }

  function Folded(fold: Fold, s: string): (r: string)
    ensures |r| == |s| && forall i | 0 <= i < |s| :: r[i] == fold(s[i])
  {
    seq(|s|, i requires 0 <= i < |s| => fold(s[i]))
  }

  predicate TagAt(fold: Fold, s: string, tag: string, p: int) {
    0 <= p && p + |tag| <= |s| && Folded(fold, s[p..p + |tag|]) == tag
  }

  predicate TagFree(fold: Fold, s: string, tag: string) {
    forall p | 0 <= p < |s| :: !TagAt(fold, s, tag, p)
  }

  function Find(fold: Fold, s: string, tag: string, from: nat): (idx: int)
    requires tag != "" && from <= |s|
    ensures idx == -1 || (from <= idx && idx + |tag| <= |s| && TagAt(fold, s, tag, idx))
    ensures forall p | from <= p < (if idx == -1 then |s| else idx) :: !TagAt(fold, s, tag, p)
    decreases |s| - from
  {
    if from == |s| then -1
    else if TagAt(fold, s, tag, from) then from
    else Find(fold, s, tag, from + 1)
  }

  function Paint(kind: Kind, text: string): (marks: seq<Mark>)
    ensures |marks| == |text|
    ensures forall i | 0 <= i < |text| :: marks[i] == Mark(kind, text[i])
  {
    seq(|text|, i requires 0 <= i < |text| => Mark(kind, text[i]))
  }

  function Flatten(pieces: seq<Piece>): seq<Mark> {
    if pieces == [] then []
    else
      var last := pieces[|pieces| - 1];
      Flatten(pieces[..|pieces| - 1]) + Paint(last.kind, last.text)
  }

  /** One-shot reference: cut the whole text at the first opening tag, then at the first
      closing tag after it, and so on. */
  function Reference(fold: Fold, s: string, inThink: bool): seq<Mark>
    decreases |s|
  {
    var tag := NextTag(inThink);
    var idx := Find(fold, s, tag, 0);
    if idx == -1 then Paint(KindOf(inThink), s)
    else Paint(KindOf(inThink), s[..idx]) + Reference(fold, s[idx + |tag|..], !inThink)
  }

  // --- The reference by itself --------------------------------------------------------

  /** Segments joined by the tag texts that separated them. */
  function Weave(segments: seq<string>, tags: seq<string>): string
    requires |segments| == |tags| + 1
    decreases |tags|
  {
    if tags == [] then segments[0] else segments[0] + tags[0] + Weave(segments[1..], tags[1..])
  }

  predicate Folds(fold: Fold, s: string, tag: string) {
    |s| == |tag| && TagAt(fold, s, tag, 0)
  }

  /** Alternating segments, none containing the tag that would have ended it. */
  predicate Alternates(fold: Fold, segments: seq<string>, tags: seq<string>, inThink: bool)
    decreases |tags|
  {
    && |segments| == |tags| + 1
    && TagFree(fold, segments[0], NextTag(inThink))
    && (tags != [] ==>
          Folds(fold, tags[0], NextTag(inThink)) && Alternates(fold, segments[1..], tags[1..], !inThink))
  }

  function Alternating(segments: seq<string>, inThink: bool): seq<Mark> {
    if segments == [] then []
    else Paint(KindOf(inThink), segments[0]) + Alternating(segments[1..], !inThink)
  }

  /** Whether a tag occurs depends on its own characters only. */
  lemma TagIsLocal(fold: Fold, a: string, b: string, tag: string, p: nat)
    requires p + |tag| <= |a|
    ensures TagAt(fold, a + b, tag, p) <==> TagAt(fold, a, tag, p)
  {
    assert (a + b)[p..p + |tag|] == a[p..p + |tag|];
  }

  lemma TagShifts(fold: Fold, s: string, n: nat, tag: string, p: nat)
    requires n <= |s|
    ensures TagAt(fold, s[n..], tag, p) <==> TagAt(fold, s, tag, n + p)
  {
    if n + p + |tag| <= |s| {
      assert s[n..][p..p + |tag|] == s[n + p..n + p + |tag|];
    }
  }

  lemma TagIsFirst(fold: Fold, s: string, tag: string, idx: nat)
    requires tag != "" && TagAt(fold, s, tag, idx) && forall p | 0 <= p < idx :: !TagAt(fold, s, tag, p)
    ensures Find(fold, s, tag, 0) == idx
  {
  }

  lemma ReferenceCut(fold: Fold, s: string, idx: nat, inThink: bool)
    requires TagAt(fold, s, NextTag(inThink), idx)
    requires forall p | 0 <= p < idx :: !TagAt(fold, s, NextTag(inThink), p)
    ensures Reference(fold, s, inThink)
            == Paint(KindOf(inThink), s[..idx]) + Reference(fold, s[idx + |NextTag(inThink)|..], !inThink)
  {
    TagIsFirst(fold, s, NextTag(inThink), idx);
  }

  /** A tag cannot start inside a clean segment and end in the tag that follows it. */
  lemma FirstTagAfterCleanSegment(fold: Fold, segment: string, cut: string, rest: string, inThink: bool)
    requires TagFree(fold, segment, NextTag(inThink)) && Folds(fold, cut, NextTag(inThink))
    ensures Find(fold, segment + cut + rest, NextTag(inThink), 0) == |segment|
  {
    var tag := NextTag(inThink);
    assert tag[0] == '<' && forall k | 1 <= k < |tag| :: tag[k] != '<';
    var s := segment + (cut + rest);
    assert s == segment + cut + rest;
    assert s[|segment|..] == cut + rest;
    TagIsLocal(fold, cut, rest, tag, 0);
    TagShifts(fold, s, |segment|, tag, 0);
    forall p | 0 <= p < |segment| ensures !TagAt(fold, s, tag, p) {
      if p + |tag| <= |segment| {
        TagIsLocal(fold, segment, cut + rest, tag, p);
      } else {
        var k := |segment| - p;
        assert cut[0..|tag|] == cut && Folded(fold, cut)[0] == fold(cut[0]) == tag[0] != tag[k];
        if p + |tag| <= |s| {
          assert Folded(fold, s[p..p + |tag|])[k] == fold(s[p + k]) == fold(cut[0]);
        }
      }
    }
    TagIsFirst(fold, s, tag, |segment|);
  }

  /** Splitting undoes weaving. */
  lemma {:induction false} ReferenceInvertsWeave(fold: Fold, segments: seq<string>, tags: seq<string>, inThink: bool)
    requires Alternates(fold, segments, tags, inThink)
    ensures Reference(fold, Weave(segments, tags), inThink) == Alternating(segments, inThink)
    decreases |tags|
  {
    var s := Weave(segments, tags);
    if tags == [] {
      assert segments[1..] == [];
      assert Alternating(segments, inThink) == Paint(KindOf(inThink), s) + [];
    } else {
      var rest := Weave(segments[1..], tags[1..]);
      FirstTagAfterCleanSegment(fold, segments[0], tags[0], rest, inThink);
      assert s[..|segments[0]|] == segments[0];
      assert s[|segments[0]| + |tags[0]|..] == rest;
      ReferenceInvertsWeave(fold, segments[1..], tags[1..], !inThink);
    }
  }

  lemma WeaveOne(s: string)
    ensures Weave([s], []) == s
  {
  }

  lemma CutFolds(fold: Fold, s: string, tag: string, idx: nat)
    requires TagAt(fold, s, tag, idx)
    ensures idx + |tag| <= |s| && Folds(fold, s[idx..idx + |tag|], tag)
  {
    assert s[idx..idx + |tag|][0..|tag|] == s[idx..idx + |tag|];
  }

  lemma WeaveCons(fold: Fold, head: string, cut: string, segments: seq<string>, tags: seq<string>, inThink: bool)
    requires TagFree(fold, head, NextTag(inThink)) && Folds(fold, cut, NextTag(inThink))
    requires Alternates(fold, segments, tags, !inThink)
    ensures Alternates(fold, [head] + segments, [cut] + tags, inThink)
    ensures Weave([head] + segments, [cut] + tags) == head + cut + Weave(segments, tags)
  {
    hide TagFree, Folds;
    assert ([head] + segments)[1..] == segments && ([cut] + tags)[1..] == tags;
  }

  /** Every text is such a weave, so no character is lost, reordered or invented: the
      output is the text minus exactly the separating tags. */
  lemma {:induction false} EveryTextIsAWeave(fold: Fold, s: string, inThink: bool)
    returns (segments: seq<string>, tags: seq<string>)
    ensures Alternates(fold, segments, tags, inThink)
    ensures Weave(segments, tags) == s
    ensures Reference(fold, s, inThink) == Alternating(segments, inThink)
    decreases |s|
  {
    hide Reference, TagAt, Weave, Folds, Alternating;
    var tag := NextTag(inThink);
    var idx := Find(fold, s, tag, 0);
    if idx == -1 {
      assert Weave([s], []) == s by { WeaveOne(s); }
      segments, tags := [s], [];
    } else {
      var cut, rest := s[idx..idx + |tag|], s[idx + |tag|..];
      var ss, ts := EveryTextIsAWeave(fold, rest, !inThink);
      segments, tags := [s[..idx]] + ss, [cut] + ts;
      PrefixTagFree(fold, s, tag, idx);
      CutFolds(fold, s, tag, idx);
      WeaveCons(fold, s[..idx], cut, ss, ts, inThink);
      assert s == s[..idx] + cut + rest;
    }
    ReferenceInvertsWeave(fold, segments, tags, inThink);
  }

  lemma PrefixTagFree(fold: Fold, s: string, tag: string, n: nat)
    requires tag != "" && n <= |s| && forall p | 0 <= p < n :: !TagAt(fold, s, tag, p)
    ensures TagFree(fold, s[..n], tag)
  {
    forall p | 0 <= p < n ensures !TagAt(fold, s[..n], tag, p) {
      if p + |tag| <= n {
        TagIsLocal(fold, s[..n], s[n..], tag, p);
        assert s[..n] + s[n..] == s;
      }
    }
  }

  /** A text cut at its tags: an opening one after every even segment, a closing one after every odd
      segment, and in no segment the tag that would have ended it. */
  predicate Cut(fold: Fold, text: string, segments: seq<string>, tags: seq<string>) {
    && |segments| == |tags| + 1 && Weave(segments, tags) == text
    && (forall i | 0 <= i < |tags| :: Folds(fold, tags[i], if i % 2 == 0 then "<think>" else "</think>"))
    && (forall i | 0 <= i < |segments| :: TagFree(fold, segments[i], if i % 2 == 0 then "<think>" else "</think>"))
  }

  /** Even segments are answer, odd ones thought. */
  function Coloured(segments: seq<string>, i: nat): seq<Mark>
    requires i <= |segments|
    decreases |segments| - i
  {
    if i == |segments| then []
    else Paint(if i % 2 == 0 then Token else Thought, segments[i]) + Coloured(segments, i + 1)
  }

  lemma {:induction false} AlternatingIsColoured(fold: Fold, segments: seq<string>, tags: seq<string>, i: nat)
    requires |segments| == |tags| + 1 && i < |segments|
    requires Alternates(fold, segments[i..], tags[i..], i % 2 == 1)
    ensures Alternating(segments[i..], i % 2 == 1) == Coloured(segments, i)
    ensures forall k | i <= k < |tags| :: Folds(fold, tags[k], if k % 2 == 0 then "<think>" else "</think>")
    ensures forall k | i <= k < |segments| :: TagFree(fold, segments[k], if k % 2 == 0 then "<think>" else "</think>")
    decreases |segments| - i
  {
    hide TagFree, Folds;
    assert segments[i..][1..] == segments[i + 1..];
    if i < |tags| {
      assert tags[i..][1..] == tags[i + 1..];
      AlternatingIsColoured(fold, segments, tags, i + 1);
    } else {
      assert segments[i + 1..] == [] && tags[i..] == [];
      assert Coloured(segments, i + 1) == [] && Alternating([], i % 2 == 0) == [];
    }
  }

  /** Every text is cut at its tags in this way, and what lies outside them is the answer. */
  lemma OutsideTagsIsAnswer(fold: Fold, text: string) returns (segments: seq<string>, tags: seq<string>)
    ensures Cut(fold, text, segments, tags)
    ensures Reference(fold, text, false) == Coloured(segments, 0)
  {
    hide Reference, Alternating, Coloured, TagFree, Folds;
    segments, tags := EveryTextIsAWeave(fold, text, false);
    assert segments[0..] == segments && tags[0..] == tags;
    AlternatingIsColoured(fold, segments, tags, 0);
  }

  /** The segments from `i` on, leaving out every other one. */
  function EveryOther(segments: seq<string>, i: nat): string
    decreases |segments| - i
  {
    if i >= |segments| then "" else segments[i] + EveryOther(segments, i + 2)
  }

  // --- Cutting the stream ----------------------------------------------------------------

  /** A tag found in the buffer is found at the same place in the whole text. */
  lemma FoundEarly(fold: Fold, buffer: string, rest: string, inThink: bool)
    requires Find(fold, buffer, NextTag(inThink), 0) >= 0
    ensures var tag, idx := NextTag(inThink), Find(fold, buffer, NextTag(inThink), 0);
            Reference(fold, buffer + rest, inThink)
            == Paint(KindOf(inThink), buffer[..idx]) + Reference(fold, buffer[idx + |tag|..] + rest, !inThink)
  {
    hide Reference, Paint, TagAt;
    var tag := NextTag(inThink);
    var idx := Find(fold, buffer, tag, 0);
    forall p | 0 <= p <= idx ensures TagAt(fold, buffer + rest, tag, p) <==> TagAt(fold, buffer, tag, p) {
      TagIsLocal(fold, buffer, rest, tag, p);
    }
    ReferenceCut(fold, buffer + rest, idx, inThink);
    assert (buffer + rest)[..idx] == buffer[..idx];
    assert (buffer + rest)[idx + |tag|..] == buffer[idx + |tag|..] + rest;
  }

  /** Characters before the first tag can be split off. */
  lemma PaintPrefix(fold: Fold, s: string, n: nat, inThink: bool)
    requires n <= |s| && forall p | 0 <= p < n :: !TagAt(fold, s, NextTag(inThink), p)
    ensures Reference(fold, s, inThink) == Paint(KindOf(inThink), s[..n]) + Reference(fold, s[n..], inThink)
  {
    hide *;
    FindSkips(fold, s, n, NextTag(inThink));
    if Find(fold, s[n..], NextTag(inThink), 0) == -1 {
      PaintPrefixOfAll(fold, s, n, inThink);
    } else {
      PaintPrefixOfCut(fold, s, n, inThink, Find(fold, s[n..], NextTag(inThink), 0));
    }
  }

  lemma PaintPrefixOfAll(fold: Fold, s: string, n: nat, inThink: bool)
    requires n <= |s| && Find(fold, s, NextTag(inThink), 0) == -1 && Find(fold, s[n..], NextTag(inThink), 0) == -1
    ensures Reference(fold, s, inThink) == Paint(KindOf(inThink), s[..n]) + Reference(fold, s[n..], inThink)
  {
    hide *;
    ReferenceStep(fold, s, inThink);
    ReferenceStep(fold, s[n..], inThink);
    PaintAppend(KindOf(inThink), s[..n], s[n..]);
    assert s == s[..n] + s[n..];
  }

  lemma PaintPrefixOfCut(fold: Fold, s: string, n: nat, inThink: bool, idx: nat)
    requires n <= |s| && Find(fold, s, NextTag(inThink), 0) == n + idx && Find(fold, s[n..], NextTag(inThink), 0) == idx
    ensures Reference(fold, s, inThink) == Paint(KindOf(inThink), s[..n]) + Reference(fold, s[n..], inThink)
  {
    hide *;
    var kind, tail, k := KindOf(inThink), s[n..], |NextTag(inThink)|;
    ReferenceStep(fold, s, inThink);
    ReferenceStep(fold, tail, inThink);
    PrefixPieces(s, n, idx, k);
    PaintAppend(kind, s[..n], tail[..idx]);
    Associate(Paint(kind, s[..n]), Paint(kind, tail[..idx]), Reference(fold, tail[idx + k..], !inThink));
  }

  lemma PrefixPieces(s: string, n: nat, idx: nat, k: nat)
    requires n + idx + k <= |s|
    ensures s[n..][idx + k..] == s[n + idx + k..] && s[..n + idx] == s[..n] + s[n..][..idx]
  {
  }

  /** The definition of Reference, one step. */
  lemma ReferenceStep(fold: Fold, s: string, inThink: bool)
    ensures var tag, idx := NextTag(inThink), Find(fold, s, NextTag(inThink), 0);
            Reference(fold, s, inThink)
            == if idx == -1 then Paint(KindOf(inThink), s)
               else Paint(KindOf(inThink), s[..idx]) + Reference(fold, s[idx + |tag|..], !inThink)
  {
  }

  lemma Associate(a: seq<Mark>, b: seq<Mark>, c: seq<Mark>)
    ensures a + b + c == a + (b + c)
  {
  }

  lemma PaintAppend(kind: Kind, a: string, b: string)
    ensures Paint(kind, a + b) == Paint(kind, a) + Paint(kind, b)
  {
  }

  lemma FindSkips(fold: Fold, s: string, n: nat, tag: string)
    requires tag != "" && n <= |s| && forall p | 0 <= p < n :: !TagAt(fold, s, tag, p)
    ensures var idx := Find(fold, s[n..], tag, 0);
            Find(fold, s, tag, 0) == if idx == -1 then -1 else n + idx
  {
    var idx := Find(fold, s[n..], tag, 0);
    forall p | n <= p < |s| ensures TagAt(fold, s, tag, p) <==> TagAt(fold, s[n..], tag, p - n) {
      TagShifts(fold, s, n, tag, p - n);
    }
    if idx != -1 {
      TagIsFirst(fold, s, tag, n + idx);
    }
  }

  /** Without an opening tag in the buffer, all but its last six characters are settled. */
  lemma SafePrefix(fold: Fold, buffer: string, rest: string, n: nat)
    requires Find(fold, buffer, OPEN, 0) == -1
    requires n + |OPEN| - 1 <= |buffer|
    ensures Reference(fold, buffer + rest, false)
            == Paint(Token, buffer[..n]) + Reference(fold, buffer[n..] + rest, false)
  {
    forall p | 0 <= p < n ensures !TagAt(fold, buffer + rest, OPEN, p) {
      TagIsLocal(fold, buffer, rest, OPEN, p);
    }
    PaintPrefix(fold, buffer + rest, n, false);
    assert (buffer + rest)[..n] == buffer[..n];
    assert (buffer + rest)[n..] == buffer[n..] + rest;
  }

  /** Going from state (b, t) to (b', t') by emitting `marks` loses nothing: whatever comes
      next, splitting b plus the rest gives `marks` and then the split of b' plus the rest. */
  ghost predicate Settles(fold: Fold, b: string, t: bool, marks: seq<Mark>, b': string, t': bool) {
    forall rest: string :: Reference(fold, b + rest, t) == marks + Reference(fold, b' + rest, t')
  }

  lemma SettlesThen(fold: Fold, b0: string, t0: bool, m0: seq<Mark>, b1: string, t1: bool,
                    m1: seq<Mark>, b2: string, t2: bool)
    requires Settles(fold, b0, t0, m0, b1, t1) && Settles(fold, b1, t1, m1, b2, t2)
    ensures Settles(fold, b0, t0, m0 + m1, b2, t2)
  {
    hide Reference;
    forall rest: string
      ensures Reference(fold, b0 + rest, t0) == m0 + m1 + Reference(fold, b2 + rest, t2)
    {
      assert Reference(fold, b1 + rest, t1) == m1 + Reference(fold, b2 + rest, t2);
    }
  }

  lemma SettlesNothing(fold: Fold, b: string, t: bool)
    ensures Settles(fold, b, t, [], b, t)
  {
    hide Reference;
    assert forall rest: string :: [] + Reference(fold, b + rest, t) == Reference(fold, b + rest, t);
  }

  lemma FoundSettles(fold: Fold, buffer: string, inThink: bool)
    requires Find(fold, buffer, NextTag(inThink), 0) >= 0
    ensures var tag, idx := NextTag(inThink), Find(fold, buffer, NextTag(inThink), 0);
            Settles(fold, buffer, inThink, Paint(KindOf(inThink), buffer[..idx]), buffer[idx + |tag|..], !inThink)
  {
    forall rest: string { FoundEarly(fold, buffer, rest, inThink); }
  }

  lemma PrefixSettles(fold: Fold, buffer: string, n: nat)
    requires Find(fold, buffer, OPEN, 0) == -1 && n + |OPEN| - 1 <= |buffer|
    ensures Settles(fold, buffer, false, Paint(Token, buffer[..n]), buffer[n..], false)
    ensures TagFree(fold, buffer[n..], OPEN)
  {
    forall rest: string { SafePrefix(fold, buffer, rest, n); }
    forall p | 0 <= p < |buffer[n..]| { TagShifts(fold, buffer, n, OPEN, p); }
  }

  /** What may stay behind: no complete tag, and outside a think block at most the six
      characters that could still begin one. */
  predicate Held(fold: Fold, b: string, t: bool) {
    TagFree(fold, b, NextTag(t)) && (!t ==> |b| < |OPEN|)
  }

  /** Of the text fed so far all has been shown but what may stay behind. */
  ghost predicate Timely(fold: Fold, fed: string, shown: seq<Mark>) {
    exists b, t :: Settles(fold, fed, false, shown, b, t) && Held(fold, b, t)
  }

  /** What a drain releases, and what it leaves behind. */
  datatype Shed = Shed(pieces: seq<Piece>, buffer: string, inThink: bool) {
    function Behind(out: seq<Piece>): Shed { this.(pieces := out + pieces) }
  }

  function PieceOf(kind: Kind, text: string): seq<Piece> { if text != "" then [Piece(kind, text)] else [] }

  /** Everything up to the last complete tag; of the rest all when final, in a think block nothing, and
      outside one all but the last six characters. */
  function Drained(fold: Fold, b: string, t: bool, final: bool): (d: Shed)
    ensures forall p | p in d.pieces :: p.text != ""
    decreases |b|
  {
    var tag := NextTag(t);
    var idx := Find(fold, b, tag, 0);
    if idx >= 0 then
      var later := Drained(fold, b[idx + |tag|..], !t, final);
      later.Behind(PieceOf(KindOf(t), b[..idx]))
    else if final then Shed(PieceOf(KindOf(t), b), "", t)
    else if !t && |b| > |OPEN| - 1 then
      var safe := |b| - (|OPEN| - 1);
      Shed(PieceOf(Token, b[..safe]), b[safe..], t)
    else Shed([], b, t)
  }

  lemma NothingBefore(d: Shed)
    ensures d.Behind([]) == d
  {
    assert [] + d.pieces == d.pieces;
  }

  lemma DrainTag(fold: Fold, b: string, t: bool, final: bool, out: seq<Piece>)
    requires Find(fold, b, NextTag(t), 0) >= 0
    ensures var idx, k := Find(fold, b, NextTag(t), 0), |NextTag(t)|;
            Drained(fold, b, t, final).Behind(out)
            == Drained(fold, b[idx + k..], !t, final).Behind(out + PieceOf(KindOf(t), b[..idx]))
  {
    hide Find, PieceOf;
    var idx := Find(fold, b, NextTag(t), 0);
    var later := Drained(fold, b[idx + |NextTag(t)|..], !t, final);
    assert out + (PieceOf(KindOf(t), b[..idx]) + later.pieces) == (out + PieceOf(KindOf(t), b[..idx])) + later.pieces;
  }

  lemma DrainRest(fold: Fold, b: string, t: bool, final: bool, out: seq<Piece>)
    requires b == "" || Find(fold, b, NextTag(t), 0) < 0
    ensures Drained(fold, b, t, final).Behind(out) ==
            if final then Shed(out + PieceOf(KindOf(t), b), "", t)
            else if !t && |b| > |OPEN| - 1 then
              Shed(out + PieceOf(Token, b[..|b| - (|OPEN| - 1)]), b[|b| - (|OPEN| - 1)..], t)
            else Shed(out, b, t)
  {
    hide PieceOf;
    assert out + [] == out;
  }

  lemma FlattenPiece(kind: Kind, text: string)
    ensures Flatten(PieceOf(kind, text)) == Paint(kind, text)
  {
    hide *;
    if text != "" {
      FlattenNothing();
      FlattenSnoc([], Piece(kind, text));
      assert [] + [Piece(kind, text)] == [Piece(kind, text)] && [] + Paint(kind, text) == Paint(kind, text);
      OnePiece(kind, text);
    } else {
      FlattenNothing();
      OnePiece(kind, text);
    }
  }

  lemma OnePiece(kind: Kind, text: string)
    ensures PieceOf(kind, text) == if text != "" then [Piece(kind, text)] else []
    ensures text == "" ==> Paint(kind, text) == []
  {
  }

  /** A drain loses nothing: what it releases is settled whatever comes next, or all when final. */
  lemma {:induction false} DrainedSettles(fold: Fold, b: string, t: bool, final: bool)
    ensures var d := Drained(fold, b, t, final);
            if final then Flatten(d.pieces) == Reference(fold, b, t) && d.buffer == ""
            else Settles(fold, b, t, Flatten(d.pieces), d.buffer, d.inThink) && Held(fold, d.buffer, d.inThink)
    decreases |b|
  {
    hide Reference, Settles, Flatten, Paint, PieceOf;
    var tag := NextTag(t);
    var idx := Find(fold, b, tag, 0);
    if idx >= 0 {
      var rest := b[idx + |tag|..];
      var later := Drained(fold, rest, !t, final);
      DrainedSettles(fold, rest, !t, final);
      FlattenAppend(PieceOf(KindOf(t), b[..idx]), later.pieces);
      FlattenPiece(KindOf(t), b[..idx]);
      if final {
        ReferenceStep(fold, b, t);
      } else {
        FoundSettles(fold, b, t);
        SettlesThen(fold, b, t, Paint(KindOf(t), b[..idx]), rest, !t, Flatten(later.pieces), later.buffer,
                    later.inThink);
      }
    } else if final {
      ReferenceStep(fold, b, t);
      FlattenPiece(KindOf(t), b);
    } else if !t && |b| > |OPEN| - 1 {
      PrefixSettles(fold, b, |b| - (|OPEN| - 1));
      FlattenPiece(Token, b[..|b| - (|OPEN| - 1)]);
    } else {
      FlattenNothing();
      SettlesNothing(fold, b, t);
    }
  }

  class ThinkTagStreamFilter {
    const fold: Fold
    var buffer: string
    var inThink: bool

    constructor (fold: Fold)
      ensures this.fold == fold && buffer == "" && !inThink
    {
      this.fold := fold;
      buffer, inThink := "", false;
    }

    predicate Waiting()
      reads this
    {
      Held(fold, buffer, inThink)
    }

    method Feed(text: string) returns (out: seq<Piece>)
      modifies this
      ensures Shed(out, buffer, inThink) == Drained(fold, old(buffer) + text, old(inThink), false)
      ensures Settles(fold, old(buffer) + text, old(inThink), Flatten(out), buffer, inThink)
      ensures forall p | p in out :: p.text != ""
      ensures Waiting()
    {
      buffer := buffer + text;
      DrainedSettles(fold, buffer, inThink, false);
      out := Drain(false);
    }

    method Flush() returns (out: seq<Piece>)
      modifies this
      ensures Shed(out, buffer, inThink) == Drained(fold, old(buffer), old(inThink), true)
      ensures Flatten(out) == Reference(fold, old(buffer), old(inThink))
      ensures forall p | p in out :: p.text != ""
      ensures buffer == ""
    {
      DrainedSettles(fold, buffer, inThink, true);
      out := Drain(true);
    }

    method Drain(final: bool) returns (out: seq<Piece>)
      modifies this
      ensures Shed(out, buffer, inThink) == Drained(fold, old(buffer), old(inThink), final)
    {
      hide Drained, PieceOf, Find;
      out := [];
      NothingBefore(Drained(fold, buffer, inThink, final));
      while buffer != ""
        invariant Drained(fold, old(buffer), old(inThink), final) == Drained(fold, buffer, inThink, final).Behind(out)
        decreases |buffer|
      {
        var tag := NextTag(inThink);
        var idx := Find(fold, buffer, tag, 0);
        if idx < 0 {
          break;
        }
        DrainTag(fold, buffer, inThink, final, out);
        out := Emit(out, KindOf(inThink), buffer[..idx]);
        buffer := buffer[idx + |tag|..];
        inThink := !inThink;
      }
      DrainRest(fold, buffer, inThink, final, out);
      if final {
        out := Emit(out, KindOf(inThink), buffer);
        buffer := "";
      } else {
        var safeLen := if |buffer| > |OPEN| - 1 then |buffer| - (|OPEN| - 1) else 0;
        if !inThink && safeLen != 0 {
          out := Emit(out, Token, buffer[..safeLen]);
          buffer := buffer[safeLen..];
        }
      }
    }

    static method Emit(out: seq<Piece>, kind: Kind, text: string) returns (r: seq<Piece>)
      ensures r == out + PieceOf(kind, text)
    {
      if text != "" {
        r := out + [Piece(kind, text)];
      } else {
        r := out;
      }
    }
  }

  // --- Whole streams -------------------------------------------------------------------

  function Concat(chunks: seq<string>): string {
    if chunks == [] then "" else Concat(chunks[..|chunks| - 1]) + chunks[|chunks| - 1]
  }

  lemma SettlesMore(fold: Fold, b: string, t: bool, marks: seq<Mark>, b': string, t': bool, text: string)
    requires Settles(fold, b, t, marks, b', t')
    ensures Settles(fold, b + text, t, marks, b' + text, t')
  {
    hide Reference;
    forall rest: string
      ensures Reference(fold, b + text + rest, t) == marks + Reference(fold, b' + text + rest, t')
    {
      assert b + text + rest == b + (text + rest) && b' + text + rest == b' + (text + rest);
    }
  }

  /** However a text is cut into chunks, feeding them and flushing yields the reference
      split of the whole text. */
  method SplitStream(fold: Fold, chunks: seq<string>) returns (out: seq<Piece>)
    ensures Flatten(out) == Reference(fold, Concat(chunks), false)
    ensures forall p | p in out :: p.text != ""
  {
    hide Reference, Settles, TagFree, TagAt;
    var filter := new ThinkTagStreamFilter(fold);
    out := [];
    SettlesNothing(fold, "", false);
    for i := 0 to |chunks|
      invariant filter.fold == fold
      invariant Settles(fold, Concat(chunks[..i]), false, Flatten(out), filter.buffer, filter.inThink)
      invariant forall p | p in out :: p.text != ""
    {
      ghost var b, t, b0 := filter.buffer, filter.inThink, Concat(chunks[..i]);
      SettlesMore(fold, b0, false, Flatten(out), b, t, chunks[i]);
      var pieces := filter.Feed(chunks[i]);
      SettlesThen(fold, b0 + chunks[i], false, Flatten(out), b + chunks[i], t,
                  Flatten(pieces), filter.buffer, filter.inThink);
      FlattenAppend(out, pieces);
      out := out + pieces;
      assert chunks[..i + 1][..i] == chunks[..i];
    }
    assert chunks[..|chunks|] == chunks;
    SettledAtEnd(fold, Concat(chunks), Flatten(out), filter.buffer, filter.inThink);
    var pieces := filter.Flush();
    FlattenAppend(out, pieces);
    out := out + pieces;
  }

  lemma SettledAtEnd(fold: Fold, s: string, marks: seq<Mark>, b: string, t: bool)
    requires Settles(fold, s, false, marks, b, t)
    ensures Reference(fold, s, false) == marks + Reference(fold, b, t)
  {
    hide Reference;
    assert s + "" == s && b + "" == b;
  }

  lemma {:induction false} FlattenAppend(a: seq<Piece>, b: seq<Piece>)
    ensures Flatten(a + b) == Flatten(a) + Flatten(b)
  {
    hide *;
    if b == [] {
      assert a + b == a && Flatten(a) + [] == Flatten(a);
      FlattenNothing();
    } else {
      var init, last := b[..|b| - 1], b[|b| - 1];
      FlattenAppend(a, init);
      FlattenSnoc(a + init, last);
      FlattenSnoc(init, last);
      assert a + b == (a + init) + [last] && b == init + [last];
      Associate(Flatten(a), Flatten(init), Paint(last.kind, last.text));
    }
  }

  lemma FlattenNothing()
    ensures Flatten([]) == []
  {
  }

  lemma FlattenSnoc(pieces: seq<Piece>, piece: Piece)
    ensures Flatten(pieces + [piece]) == Flatten(pieces) + Paint(piece.kind, piece.text)
  {
    assert (pieces + [piece])[..|pieces|] == pieces;
  }

  /** Adds a piece, joining it to a last piece of the same kind. */
  function Join(pieces: seq<Piece>, piece: Piece): seq<Piece> {
    if piece.text == "" then pieces
    else if pieces != [] && pieces[|pieces| - 1].kind == piece.kind
    then pieces[..|pieces| - 1] + [Piece(piece.kind, pieces[|pieces| - 1].text + piece.text)]
    else pieces + [piece]
  }

  /** Adjacent pieces of the same kind joined. */
  function Merged(pieces: seq<Piece>): seq<Piece> {
    if pieces == [] then [] else Join(Merged(pieces[..|pieces| - 1]), pieces[|pieces| - 1])
  }

  function Grouped(marks: seq<Mark>): seq<Piece> {
    if marks == [] then []
    else
      var last := marks[|marks| - 1];
      Join(Grouped(marks[..|marks| - 1]), Piece(last.kind, [last.c]))
  }

  lemma GroupedSnoc(marks: seq<Mark>, m: Mark)
    ensures Grouped(marks + [m]) == Join(Grouped(marks), Piece(m.kind, [m.c]))
  {
    assert (marks + [m])[..|marks|] == marks;
  }

  lemma {:induction false} GroupedPaint(marks: seq<Mark>, kind: Kind, text: string)
    ensures Grouped(marks + Paint(kind, text)) == Join(Grouped(marks), Piece(kind, text))
  {
    if text == "" {
      assert marks + Paint(kind, text) == marks;
    } else {
      hide *;
      var init, c := text[..|text| - 1], text[|text| - 1];
      GroupedPaint(marks, kind, init);
      GroupedSnoc(marks + Paint(kind, init), Mark(kind, c));
      JoinTwice(Grouped(marks), kind, init, [c]);
      PaintSnoc(marks, kind, init, c);
      assert text == init + [c];
    }
  }

  lemma PaintSnoc(marks: seq<Mark>, kind: Kind, text: string, c: char)
    ensures marks + Paint(kind, text + [c]) == marks + Paint(kind, text) + [Mark(kind, c)]
  {
    assert Paint(kind, text + [c]) == Paint(kind, text) + [Mark(kind, c)];
  }

  lemma JoinTwice(pieces: seq<Piece>, kind: Kind, a: string, b: string)
    ensures Join(Join(pieces, Piece(kind, a)), Piece(kind, b)) == Join(pieces, Piece(kind, a + b))
  {
    if a == "" {
      assert a + b == b;
    } else if b == "" {
      assert a + b == a;
    } else if pieces != [] && pieces[|pieces| - 1].kind == kind {
      var text := pieces[|pieces| - 1].text;
      assert text + a + b == text + (a + b);
    }
  }

  /** The merged output is a function of the marks alone, so two outputs with the same
      marks are the same pieces once adjacent pieces of a kind are joined. */
  lemma {:induction false} MergedIsGrouped(pieces: seq<Piece>)
    ensures Merged(pieces) == Grouped(Flatten(pieces))
  {
    if pieces != [] {
      var init, last := pieces[..|pieces| - 1], pieces[|pieces| - 1];
      MergedIsGrouped(init);
      GroupedPaint(Flatten(init), last.kind, last.text);
    }
  }
}
