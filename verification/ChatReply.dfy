/** One streamed model reply: what it says, and what of it the reader is shown, chunk by chunk. */
module ChatReply {
  import opened Wrappers
  import opened Messages
  import opened ChatRun
  import TF = ThinkFilter

  datatype Chunk = Chunk(delta: string, thinking: string, toolCalls: seq<ToolCall>, usage: Option<string>)

  // --- What a reply says ---------------------------------------------------------------------

  function Deltas(chunks: seq<Chunk>): seq<string> {
    if chunks == [] then []
    else
      var last := chunks[|chunks| - 1];
      Deltas(chunks[..|chunks| - 1]) + (if last.delta != "" then [last.delta] else [])
  }

  function AllCalls(chunks: seq<Chunk>): seq<ToolCall> {
    if chunks == [] then [] else AllCalls(chunks[..|chunks| - 1]) + chunks[|chunks| - 1].toolCalls
  }

  function AllThinking(chunks: seq<Chunk>): string {
    if chunks == [] then "" else AllThinking(chunks[..|chunks| - 1]) + chunks[|chunks| - 1].thinking
  }

  function LastUsage(chunks: seq<Chunk>): Option<string> {
    if chunks == [] then None
    else if chunks[|chunks| - 1].usage.Some? then chunks[|chunks| - 1].usage
    else LastUsage(chunks[..|chunks| - 1])
  }

  /** The characters the splitter sent to the reader. */
  function TokenChars(marks: seq<TF.Mark>): string {
    if marks == [] then ""
    else
      var last := marks[|marks| - 1];
      TokenChars(marks[..|marks| - 1]) + (if last.kind.Token? then [last.c] else "")
  }

  /** The answer in a reply: its text outside think tags. */
  function AnswerIn(fold: TF.Fold, chunks: seq<Chunk>): string {
    TokenChars(TF.Reference(fold, TF.Concat(Deltas(chunks)), false))
  }

  lemma {:induction false} TokenCharsAppend(a: seq<TF.Mark>, b: seq<TF.Mark>)
    ensures TokenChars(a + b) == TokenChars(a) + TokenChars(b)
  {
    if b == [] {
      assert a + b == a;
    } else {
      assert (a + b)[..|a + b| - 1] == a + b[..|b| - 1];
      TokenCharsAppend(a, b[..|b| - 1]);
    }
  }

  lemma {:induction false} TokenCharsPaint(kind: TF.Kind, text: string)
    ensures TokenChars(TF.Paint(kind, text)) == if kind.Token? then text else ""
  {
    if text != "" {
      var n := |text| - 1;
      assert TF.Paint(kind, text)[..n] == TF.Paint(kind, text[..n]);
      TokenCharsPaint(kind, text[..n]);
      assert text == text[..n] + [text[n]];
    }
  }

  lemma ChunkNext(chunks: seq<Chunk>, i: nat)
    requires i < |chunks|
    ensures var before, chunk := chunks[..i], chunks[i];
            && Deltas(chunks[..i + 1]) == Deltas(before) + (if chunk.delta != "" then [chunk.delta] else [])
            && AllThinking(chunks[..i + 1]) == AllThinking(before) + chunk.thinking
            && AllCalls(chunks[..i + 1]) == AllCalls(before) + chunk.toolCalls
            && LastUsage(chunks[..i + 1]) == if chunk.usage.Some? then chunk.usage else LastUsage(before)
  {
    assert chunks[..i + 1][..i] == chunks[..i];
  }

  // --- What the reader is shown --------------------------------------------------------------

  function EventOf(piece: TF.Piece): Event {
    if piece.kind.Thought? then ThoughtEvent(piece.text) else TokenEvent(piece.text)
  }

  function EventsOf(pieces: seq<TF.Piece>): (events: seq<Event>)
    ensures |events| == |pieces| && forall i | 0 <= i < |events| :: events[i] == EventOf(pieces[i])
  {
    seq(|pieces|, i requires 0 <= i < |pieces| => EventOf(pieces[i]))
  }

  /** The splitter after these chunks: what it released for the last of them, and what it holds. */
  function FilterAfter(fold: TF.Fold, chunks: seq<Chunk>): TF.Shed {
    if chunks == [] then TF.Shed([], "", false)
    else
      var before, chunk := FilterAfter(fold, chunks[..|chunks| - 1]), chunks[|chunks| - 1];
      if chunk.delta == "" then before.(pieces := [])
      else TF.Drained(fold, before.buffer + chunk.delta, before.inThink, false)
  }

  function ThinkingEvents(chunk: Chunk): seq<Event> {
    if chunk.thinking != "" then [ThoughtEvent(chunk.thinking)] else []
  }

  /** The events of these chunks: of each its own thinking, then what the splitter releases. */
  function Shown(fold: TF.Fold, chunks: seq<Chunk>): seq<Event> {
    if chunks == [] then []
    else
      Shown(fold, chunks[..|chunks| - 1])
      + (ThinkingEvents(chunks[|chunks| - 1]) + EventsOf(FilterAfter(fold, chunks).pieces))
  }

  /** What is released when the reply is over. */
  function FlushAfter(fold: TF.Fold, chunks: seq<Chunk>): seq<TF.Piece> {
    TF.Drained(fold, FilterAfter(fold, chunks).buffer, FilterAfter(fold, chunks).inThink, true).pieces
  }

  /** The events of a whole reply. */
  function ReplyEvents(fold: TF.Fold, chunks: seq<Chunk>): seq<Event> {
    Shown(fold, chunks) + EventsOf(FlushAfter(fold, chunks))
  }

  /** All the pieces released for these chunks. */
  function Pieces(fold: TF.Fold, chunks: seq<Chunk>): seq<TF.Piece> {
    if chunks == [] then []
    else Pieces(fold, chunks[..|chunks| - 1]) + FilterAfter(fold, chunks).pieces
  }

  lemma ConcatNext(deltas: seq<string>, delta: string)
    ensures TF.Concat(deltas + [delta]) == TF.Concat(deltas) + delta
    ensures TF.Concat([]) == ""
  {
    assert (deltas + [delta])[..|deltas|] == deltas;
  }

  /** After every chunk all its text has been shown that could be, and nothing is shown too early. */
  lemma {:induction false} ShownInTime(fold: TF.Fold, chunks: seq<Chunk>)
    ensures var f := FilterAfter(fold, chunks);
            && TF.Settles(fold, TF.Concat(Deltas(chunks)), false, TF.Flatten(Pieces(fold, chunks)), f.buffer, f.inThink)
            && TF.Held(fold, f.buffer, f.inThink)
    ensures TF.Timely(fold, TF.Concat(Deltas(chunks)), TF.Flatten(Pieces(fold, chunks)))
  {
    hide TF.Settles, TF.Flatten, TF.Held, TF.Concat, TF.Drained;
    ConcatNext([], "");
    if chunks == [] {
      TF.SettlesNothing(fold, "", false);
      TF.FlattenNothing();
      NothingHeld(fold);
    } else {
      var init, delta := chunks[..|chunks| - 1], chunks[|chunks| - 1].delta;
      ShownInTime(fold, init);
      var before, after := FilterAfter(fold, init), FilterAfter(fold, chunks);
      if delta == "" {
        assert Pieces(fold, chunks) == Pieces(fold, init) && Deltas(chunks) == Deltas(init);
      } else {
        var marks, fed := TF.Flatten(Pieces(fold, init)), TF.Concat(Deltas(init));
        TF.FlattenAppend(Pieces(fold, init), after.pieces);
        TF.DrainedSettles(fold, before.buffer + delta, before.inThink, false);
        TF.SettlesMore(fold, fed, false, marks, before.buffer, before.inThink, delta);
        TF.SettlesThen(fold, fed + delta, false, marks, before.buffer + delta, before.inThink,
                       TF.Flatten(after.pieces), after.buffer, after.inThink);
        ConcatNext(Deltas(init), delta);
      }
    }
  }

  lemma NothingHeld(fold: TF.Fold)
    ensures TF.Held(fold, "", false)
  {
  }

  /** A whole reply is shown as the one-shot split of its text, however the model cut it. */
  lemma ReplyIsShownWhole(fold: TF.Fold, chunks: seq<Chunk>)
    ensures TF.Flatten(Pieces(fold, chunks) + FlushAfter(fold, chunks))
            == TF.Reference(fold, TF.Concat(Deltas(chunks)), false)
  {
    hide TF.Settles, TF.Flatten, TF.Held, TF.Concat, TF.Drained, TF.Reference, FilterAfter, Pieces, Deltas;
    var f := FilterAfter(fold, chunks);
    ShownInTime(fold, chunks);
    TF.DrainedSettles(fold, f.buffer, f.inThink, true);
    TF.SettledAtEnd(fold, TF.Concat(Deltas(chunks)), TF.Flatten(Pieces(fold, chunks)), f.buffer, f.inThink);
    TF.FlattenAppend(Pieces(fold, chunks), FlushAfter(fold, chunks));
  }

  // --- Text of event streams -----------------------------------------------------------------

  lemma {:induction false} TokenTextAppend(a: seq<Event>, b: seq<Event>)
    ensures TokenText(a + b) == TokenText(a) + TokenText(b)
  {
    if b == [] {
      assert a + b == a;
    } else {
      assert (a + b)[..|a + b| - 1] == a + b[..|b| - 1];
      TokenTextAppend(a, b[..|b| - 1]);
    }
  }

  /** Only thoughts and tokens. */
  predicate Plain(es: seq<Event>) { forall e | e in es :: e.ThoughtEvent? || e.TokenEvent? }

  lemma {:induction false} PiecesText(pieces: seq<TF.Piece>)
    ensures TokenText(EventsOf(pieces)) == TokenChars(TF.Flatten(pieces))
    ensures Plain(EventsOf(pieces))
  {
    hide TF.Paint;
    if pieces != [] {
      var init, last := pieces[..|pieces| - 1], pieces[|pieces| - 1];
      PiecesText(init);
      assert EventsOf(pieces)[..|pieces| - 1] == EventsOf(init);
      TokenCharsAppend(TF.Flatten(init), TF.Paint(last.kind, last.text));
      TokenCharsPaint(last.kind, last.text);
    }
  }

  lemma ThinkingText(chunk: Chunk)
    ensures TokenText(ThinkingEvents(chunk)) == "" && Plain(ThinkingEvents(chunk))
  {
    assert ThinkingEvents(chunk) != [] ==> ThinkingEvents(chunk)[..0] == [];
  }

  lemma {:induction false} ShownText(fold: TF.Fold, chunks: seq<Chunk>)
    ensures TokenText(Shown(fold, chunks)) == TokenChars(TF.Flatten(Pieces(fold, chunks)))
    ensures Plain(Shown(fold, chunks))
  {
    hide TokenChars, TF.Flatten, FilterAfter, EventsOf, ThinkingEvents, TokenText, Plain;
    NothingText();
    if chunks != [] {
      var init, last := chunks[..|chunks| - 1], chunks[|chunks| - 1];
      var cut := FilterAfter(fold, chunks).pieces;
      var said, thought, events := Shown(fold, init), ThinkingEvents(last), EventsOf(cut);
      ShownText(fold, init);
      PiecesText(cut);
      ThinkingText(last);
      TokenTextAppend(thought, events);
      TokenTextAppend(said, thought + events);
      PlainAppend(thought, events);
      PlainAppend(said, thought + events);
      TF.FlattenAppend(Pieces(fold, init), cut);
      TokenCharsAppend(TF.Flatten(Pieces(fold, init)), TF.Flatten(cut));
      assert "" + TokenText(events) == TokenText(events);
    }
  }

  lemma PlainAppend(a: seq<Event>, b: seq<Event>)
    requires Plain(a) && Plain(b)
    ensures Plain(a + b)
  {
  }

  lemma NothingText()
    ensures TokenText([]) == TokenChars(TF.Flatten([])) == "" && Plain([])
  {
  }

  /** The text shown of a whole reply is its answer. */
  lemma ReplyText(fold: TF.Fold, chunks: seq<Chunk>)
    ensures TokenText(ReplyEvents(fold, chunks)) == AnswerIn(fold, chunks) && Plain(ReplyEvents(fold, chunks))
  {
    hide TokenChars, TF.Flatten, FilterAfter, EventsOf, Shown, Pieces, FlushAfter, TF.Reference, TF.Concat, Deltas,
         TokenText, Plain;
    ShownText(fold, chunks);
    PiecesText(FlushAfter(fold, chunks));
    PlainAppend(Shown(fold, chunks), EventsOf(FlushAfter(fold, chunks)));
    TokenTextAppend(Shown(fold, chunks), EventsOf(FlushAfter(fold, chunks)));
    TF.FlattenAppend(Pieces(fold, chunks), FlushAfter(fold, chunks));
    TokenCharsAppend(TF.Flatten(Pieces(fold, chunks)), TF.Flatten(FlushAfter(fold, chunks)));
    ReplyIsShownWhole(fold, chunks);
  }

  /** Thoughts and tokens leave calls, results and the state of the stream alone. */
  lemma {:induction false} PlainKeepsBooks(es: seq<Event>, more: seq<Event>)
    requires PhaseOf(es) == Idle && Plain(more)
    ensures PhaseOf(es + more) == Idle && CallsOf(es + more) == CallsOf(es) && ResultsOf(es + more) == ResultsOf(es)
  {
    if more == [] {
      assert es + more == es;
    } else {
      var init, last := more[..|more| - 1], more[|more| - 1];
      PlainKeepsBooks(es, init);
      assert (es + more)[..|es + more| - 1] == es + init;
      assert last in more;
    }
  }

  // --- What a reply says, in plain terms -----------------------------------------------------

  /** The characters the splitter sent as thoughts. */
  function ThoughtChars(marks: seq<TF.Mark>): string {
    if marks == [] then ""
    else
      var last := marks[|marks| - 1];
      ThoughtChars(marks[..|marks| - 1]) + (if last.kind.Thought? then [last.c] else "")
  }

  lemma {:induction false} ThoughtCharsAppend(a: seq<TF.Mark>, b: seq<TF.Mark>)
    ensures ThoughtChars(a + b) == ThoughtChars(a) + ThoughtChars(b)
  {
    if b == [] {
      assert a + b == a;
    } else {
      assert (a + b)[..|a + b| - 1] == a + b[..|b| - 1];
      ThoughtCharsAppend(a, b[..|b| - 1]);
    }
  }

  lemma {:induction false} ThoughtCharsPaint(kind: TF.Kind, text: string)
    ensures ThoughtChars(TF.Paint(kind, text)) == if kind.Thought? then text else ""
  {
    if text != "" {
      var n := |text| - 1;
      assert TF.Paint(kind, text)[..n] == TF.Paint(kind, text[..n]);
      ThoughtCharsPaint(kind, text[..n]);
      assert text == text[..n] + [text[n]];
    }
  }

  /** The text of a reply, tags and all. */
  function AllText(chunks: seq<Chunk>): string {
    if chunks == [] then "" else AllText(chunks[..|chunks| - 1]) + chunks[|chunks| - 1].delta
  }

  lemma {:induction false} DeltasSpellText(chunks: seq<Chunk>)
    ensures TF.Concat(Deltas(chunks)) == AllText(chunks)
  {
    ConcatNext([], "");
    if chunks != [] {
      var init, delta := chunks[..|chunks| - 1], chunks[|chunks| - 1].delta;
      DeltasSpellText(init);
      ConcatNext(Deltas(init), delta);
      assert Deltas(init) + [] == Deltas(init) && AllText(init) + "" == AllText(init);
    }
  }

  lemma {:induction false} ColouredChars(segments: seq<string>, i: nat)
    requires i <= |segments|
    ensures var marks, even := TF.Coloured(segments, i), i % 2 == 0;
            && TokenChars(marks) == TF.EveryOther(segments, if even then i else i + 1)
            && ThoughtChars(marks) == TF.EveryOther(segments, if even then i + 1 else i)
    decreases |segments| - i
  {
    hide TF.Paint, TokenChars, ThoughtChars;
    if i < |segments| {
      var kind := if i % 2 == 0 then TF.Token else TF.Thought;
      ColouredChars(segments, i + 1);
      TokenCharsAppend(TF.Paint(kind, segments[i]), TF.Coloured(segments, i + 1));
      ThoughtCharsAppend(TF.Paint(kind, segments[i]), TF.Coloured(segments, i + 1));
      TokenCharsPaint(kind, segments[i]);
      ThoughtCharsPaint(kind, segments[i]);
      assert "" + TokenChars(TF.Coloured(segments, i + 1)) == TokenChars(TF.Coloured(segments, i + 1));
      assert "" + ThoughtChars(TF.Coloured(segments, i + 1)) == ThoughtChars(TF.Coloured(segments, i + 1));
    } else {
      NoChars();
    }
  }

  lemma NoChars()
    ensures TokenChars([]) == "" == ThoughtChars([])
  {
  }

  /** Cut the text of a reply at its tags: the answer shown is what lies outside them, and what lies
      inside is shown as thought. */
  lemma AnswerIsOutsideTags(fold: TF.Fold, chunks: seq<Chunk>) returns (segments: seq<string>, tags: seq<string>)
    ensures TF.Cut(fold, AllText(chunks), segments, tags)
    ensures AnswerIn(fold, chunks) == TokenText(ReplyEvents(fold, chunks)) == TF.EveryOther(segments, 0)
    ensures ThoughtChars(TF.Flatten(Pieces(fold, chunks) + FlushAfter(fold, chunks))) == TF.EveryOther(segments, 1)
  {
    hide TF.Cut, TF.Flatten, TF.Reference, TF.Coloured, TF.EveryOther, TF.Concat, Pieces, FlushAfter, Deltas, AllText,
         ReplyEvents, TokenText, TokenChars, ThoughtChars;
    segments, tags := TF.OutsideTagsIsAnswer(fold, AllText(chunks));
    DeltasSpellText(chunks);
    ReplyText(fold, chunks);
    ReplyIsShownWhole(fold, chunks);
    ColouredChars(segments, 0);
  }

  /** A chunk shows its own thinking first and then pieces of the split text; what it asks for and reports
      joins what came before. */
  lemma NextChunk(fold: TF.Fold, chunks: seq<Chunk>, c: Chunk)
    ensures var cut := FilterAfter(fold, chunks + [c]).pieces;
            && Shown(fold, chunks + [c])
               == Shown(fold, chunks) + ((if c.thinking != "" then [ThoughtEvent(c.thinking)] else []) + EventsOf(cut))
            && Pieces(fold, chunks + [c]) == Pieces(fold, chunks) + cut
    ensures AllCalls(chunks + [c]) == AllCalls(chunks) + c.toolCalls && AllCalls([]) == []
    ensures AllThinking(chunks + [c]) == AllThinking(chunks) + c.thinking && AllThinking([]) == ""
    ensures LastUsage(chunks + [c]) == (if c.usage.Some? then c.usage else LastUsage(chunks)) && LastUsage([]) == None
  {
    hide FilterAfter;
    assert (chunks + [c])[..|chunks|] == chunks;
  }
}
