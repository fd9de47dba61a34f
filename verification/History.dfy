/** Context-window management: compact, then summarise, then trim. */
module History {
  import opened Wrappers
  import opened Messages
  import opened ToolHelpers
  import opened Tokens

  const SUMMARY_PREFIX := "Earlier-conversation summary:\n"

  /** `summarize` is the summarising model call, which may answer differently each time; `None` is its
      failure. */
  datatype Summarizer = Summarizer(summarize: (nat, seq<Message>) -> Option<string>, keepRecentSetting: int) {
    function KeepRecent(): int { if keepRecentSetting < 1 then 1 else keepRecentSetting }
  }

  /** The context window as it is when the list for model call number `call` is fitted. */
  datatype Window = Window(count: Counter, budget: TokenBudget, shrink: Shrinker, summarizer: Option<Summarizer>,
                           call: nat)
  {

    predicate Fits(ms: seq<Message>) { budget.Fits(count(ms)) }

    function Trim(ms: seq<Message>): seq<Message> { Trimmed(count, budget, ms, true) }

    function Summary(text: string): Message { SystemMessage(SUMMARY_PREFIX + text) }

    /** The rebuilt list after `older` was summarised as `text`. */
    function Rebuilt(lead: seq<Message>, text: string, recent: seq<Message>): seq<Message> {
      var rebuilt := KeepGrounded(lead + [Summary(text)] + recent);
      if Fits(rebuilt) then rebuilt else Trim(rebuilt)
    }

    function Answered(s: Summarizer, compacted: seq<Message>, lead: seq<Message>,
                      older: seq<Message>, recent: seq<Message>): seq<Message> {
      match s.summarize(call, older)
      case None => Trim(compacted)
      case Some(text) => Rebuilt(lead, text, recent)
    }

    /** Summarise if there is something to summarise and the model answers; trim otherwise. */
    function Summarized(s: Summarizer, compacted: seq<Message>): seq<Message> {
      var body := Body(compacted, true);
      var b := CutPoint(body, s.KeepRecent());
      if |body| <= s.KeepRecent() || b == 0 then Trim(compacted)
      else Answered(s, compacted, Lead(compacted, true), body[..b], body[b..])
    }

    function Compressed(s: Summarizer, ms: seq<Message>): seq<Message> {
      if ms == [] || Fits(ms) then ms
      else
        var compacted := CompactRows(shrink, ms);
        if Fits(compacted) then compacted else Summarized(s, compacted)
    }

    method Compress(s: Summarizer, messages: seq<Message>) returns (out: seq<Message>)
      ensures out == Compressed(s, messages)
    {
      if messages == [] {
        return messages;
      }
      if Fits(messages) {
        return messages;
      }
      var compacted := CompactHistoryToolMessages(shrink, messages);
      if Fits(compacted) {
        return compacted;
      }
      var leading: seq<Message> := [];
      var body := compacted;
      if body != [] && body[0].role.System? {
        leading, body := [body[0]], body[1..];
      }
      if |body| <= s.KeepRecent() {
        out := TrimToBudget(count, budget, compacted, true);
        return;
      }
      var older, recent := PairSafeRecentSplit(body, s.KeepRecent());
      if older == [] {
        out := TrimToBudget(count, budget, compacted, true);
        return;
      }
      var summary := s.summarize(call, older);
      if summary.None? {
        out := TrimToBudget(count, budget, compacted, true);
        return;
      }
      var rebuilt := DropOrphanToolMessages(leading + [Summary(summary.value)] + recent);
      if !Fits(rebuilt) {
        rebuilt := TrimToBudget(count, budget, rebuilt, true);
      }
      return rebuilt;
    }

    function Managed(ms: seq<Message>): seq<Message> {
      if Fits(ms) then ms
      else
        var compacted := CompactRows(shrink, ms);
        if Fits(compacted) then compacted
        else if summarizer.Some? then Compressed(summarizer.value, compacted)
        else Trim(compacted)
    }
  }

  /** What an LLM round is handed; without tokenizer or budget the list is left alone. */
  function Fitted(window: Option<Window>, ms: seq<Message>): seq<Message> {
    if window.None? then ms else window.value.Managed(ms)
  }

  method FitToBudget(window: Option<Window>, messages: seq<Message>) returns (out: seq<Message>)
    ensures out == Fitted(window, messages)
  {
    if window.None? {
      return messages;
    }
    var w := window.value;
    if w.Fits(messages) {
      return messages;
    }
    var compacted := CompactHistoryToolMessages(w.shrink, messages);
    if w.Fits(compacted) {
      return compacted;
    }
    if w.summarizer.Some? {
      out := w.Compress(w.summarizer.value, compacted);
      return;
    }
    out := TrimToBudget(w.count, w.budget, compacted, true);
  }

  // --- Pairing --------------------------------------------------------------------------

  lemma TrimmedOrphanFree(w: Window, ms: seq<Message>)
    ensures OrphanFree(w.Trim(ms))
  {
    var lead, body := Lead(ms, true), Body(ms, true);
    if body == [] {
      LeadBlocks(ms, true);
      BlocksOrphanFree(lead);
    } else {
      KeepGroundedOrphanFree(lead + body[Drops(w.count, w.budget, lead, body, 0)..]);
    }
  }

  lemma RebuiltOrphanFree(w: Window, lead: seq<Message>, text: string, recent: seq<Message>)
    ensures OrphanFree(w.Rebuilt(lead, text, recent))
  {
    var whole := lead + [w.Summary(text)] + recent;
    KeepGroundedOrphanFree(whole);
    TrimmedOrphanFree(w, KeepGrounded(whole));
  }

  lemma SummaryOrphanFree(w: Window, s: Summarizer, ms: seq<Message>, lead: seq<Message>,
                           older: seq<Message>, recent: seq<Message>)
    ensures OrphanFree(w.Answered(s, ms, lead, older, recent))
  {
    TrimmedOrphanFree(w, ms);
    var summary := s.summarize(w.call, older);
    if summary.Some? {
      RebuiltOrphanFree(w, lead, summary.value, recent);
    }
  }

  lemma SummarizedOrphanFree(w: Window, s: Summarizer, ms: seq<Message>)
    ensures OrphanFree(w.Summarized(s, ms))
  {
    TrimmedOrphanFree(w, ms);
    var body := Body(ms, true);
    var b := CutPoint(body, s.KeepRecent());
    SummaryOrphanFree(w, s, ms, Lead(ms, true), body[..b], body[b..]);
  }

  lemma CompressedOrphanFree(w: Window, s: Summarizer, ms: seq<Message>)
    requires OrphanFree(ms)
    ensures OrphanFree(w.Compressed(s, ms))
  {
    CompactKeepsShape(w.shrink, ms);
    SummarizedOrphanFree(w, s, CompactRows(w.shrink, ms));
  }

  /** Whatever path is taken, an orphan-free list stays orphan-free. */
  lemma FittedOrphanFree(window: Option<Window>, ms: seq<Message>)
    requires OrphanFree(ms)
    ensures OrphanFree(Fitted(window, ms))
  {
    if window.Some? {
      var w := window.value;
      var compacted := CompactRows(w.shrink, ms);
      assert OrphanFree(compacted) by { CompactKeepsShape(w.shrink, ms); }
      TrimmedOrphanFree(w, compacted);
      if w.summarizer.Some? {
        CompressedOrphanFree(w, w.summarizer.value, compacted);
      }
    }
  }

  lemma RebuiltBlocks(w: Window, lead: seq<Message>, text: string, recent: seq<Message>)
    requires ToolFree(lead) && Blocks(recent) && NonEmptyIds(recent)
    ensures Blocks(lead + [w.Summary(text)] + recent)
    ensures NonEmptyIds(lead + [w.Summary(text)] + recent)
    ensures KeepGrounded(lead + [w.Summary(text)] + recent) == lead + [w.Summary(text)] + recent
    ensures Blocks(w.Rebuilt(lead, text, recent))
  {
    var front := lead + [w.Summary(text)];
    var whole := front + recent;
    assert Blocks(whole) by {
      ToolFreeBlocks(front);
      BlocksAppend(front, recent);
    }
    assert KeepGrounded(whole) == whole by {
      BlocksOrphanFree(whole);
      KeepGroundedIdentity(whole);
    }
    TrimmedKeepsBlocks(w.count, w.budget, whole, true);
  }

  lemma SplitBodyBlocks(ms: seq<Message>, keepRecent: int)
    requires Blocks(ms) && NonEmptyIds(ms)
    ensures var body := Body(ms, true);
            Blocks(body[CutPoint(body, keepRecent)..]) && NonEmptyIds(body[CutPoint(body, keepRecent)..])
  {
    var body := Body(ms, true);
    BlocksCut(ms, |Lead(ms, true)|);
    SplitKeepsBlocks(body, keepRecent);
    assert forall m | m in body[CutPoint(body, keepRecent)..] :: m in ms;
  }

  lemma SummarizedKeepsBlocks(w: Window, s: Summarizer, ms: seq<Message>)
    requires Blocks(ms) && NonEmptyIds(ms)
    ensures Blocks(w.Summarized(s, ms))
  {
    hide Blocks, NonEmptyIds, Trimmed, Window.Answered, CutPoint, KeepGrounded, Declared;
    TrimmedKeepsBlocks(w.count, w.budget, ms, true);
    SplitBodyBlocks(ms, s.KeepRecent());
    LeadBlocks(ms, true);
    var body := Body(ms, true);
    var b := CutPoint(body, s.KeepRecent());
    if |body| > s.KeepRecent() && b > 0 {
      SummaryKeepsBlocks(w, s, ms, Lead(ms, true), body[..b], body[b..]);
    }
  }

  lemma SummaryKeepsBlocks(w: Window, s: Summarizer, ms: seq<Message>, lead: seq<Message>,
                           older: seq<Message>, recent: seq<Message>)
    requires Blocks(ms) && NonEmptyIds(ms) && ToolFree(lead) && Blocks(recent) && NonEmptyIds(recent)
    ensures Blocks(w.Answered(s, ms, lead, older, recent))
  {
    hide Blocks, NonEmptyIds, Trimmed, Window.Rebuilt, ToolFree;
    TrimmedKeepsBlocks(w.count, w.budget, ms, true);
    var summary := s.summarize(w.call, older);
    if summary.Some? {
      RebuiltBlocks(w, lead, summary.value, recent);
    }
  }

  lemma CompressedKeepsBlocks(w: Window, s: Summarizer, ms: seq<Message>)
    requires Blocks(ms) && NonEmptyIds(ms)
    ensures Blocks(w.Compressed(s, ms))
  {
    CompactKeepsShape(w.shrink, ms);
    SummarizedKeepsBlocks(w, s, CompactRows(w.shrink, ms));
  }

  /** Whatever path is taken, whole blocks stay whole blocks. */
  lemma FittedKeepsBlocks(window: Option<Window>, ms: seq<Message>)
    requires Blocks(ms) && NonEmptyIds(ms)
    ensures Blocks(Fitted(window, ms))
  {
    hide Blocks, NonEmptyIds, Trimmed, Window.Compressed, CompactRow;
    if window.Some? {
      var w := window.value;
      var compacted := CompactRows(w.shrink, ms);
      CompactKeepsShape(w.shrink, ms);
      TrimmedKeepsBlocks(w.count, w.budget, compacted, true);
      if w.summarizer.Some? {
        CompressedKeepsBlocks(w, w.summarizer.value, compacted);
      }
    }
  }

  // --- Budget ---------------------------------------------------------------------------

  /** Nothing is left to drop: a leading system row and one more row at most. */
  predicate Minimal(out: seq<Message>) {
    |out| <= 1 || (|out| == 2 && out[0].role.System?)
  }

  lemma TrimFitsOrMinimal(w: Window, ms: seq<Message>)
    requires Monotone(w.count)
    ensures w.Fits(w.Trim(ms)) || Minimal(w.Trim(ms))
  {
    if ms != [] {
      TrimmedBounded(w.count, w.budget, ms, true);
      if !w.Fits(w.Trim(ms)) {
        TrimmedOverflow(w, ms);
      }
    }
  }

  lemma TrimmedOverflow(w: Window, ms: seq<Message>)
    requires Monotone(w.count) && ms != [] && !w.Fits(w.Trim(ms))
    ensures Minimal(w.Trim(ms))
  {
    var lead, body := Lead(ms, true), Body(ms, true);
    if body != [] {
      var last := body[|body| - 1];
      var kept := lead + body[Drops(w.count, w.budget, lead, body, 0)..];
      KeepGroundedIsCheaper(w.count, kept, []);
      assert KeepGrounded(kept) + [] == KeepGrounded(kept) && kept + [] == kept;
      assert kept == lead + [last];
      KeepGroundedOfFew(lead, last);
    }
  }

  lemma CompressedFitsOrMinimal(w: Window, s: Summarizer, ms: seq<Message>)
    requires Monotone(w.count)
    ensures w.Fits(w.Compressed(s, ms)) || Minimal(w.Compressed(s, ms))
  {
    hide Trimmed, Window.Rebuilt, Monotone, Breaks, CompactRow;
    var compacted := CompactRows(w.shrink, ms);
    TrimFitsOrMinimal(w, compacted);
    var body := Body(compacted, true);
    var b := CutPoint(body, s.KeepRecent());
    var summary := s.summarize(w.call, body[..b]);
    if summary.Some? {
      RebuiltFitsOrMinimal(w, Lead(compacted, true), summary.value, body[b..]);
    }
  }

  lemma RebuiltFitsOrMinimal(w: Window, lead: seq<Message>, text: string, recent: seq<Message>)
    requires Monotone(w.count)
    ensures w.Fits(w.Rebuilt(lead, text, recent)) || Minimal(w.Rebuilt(lead, text, recent))
  {
    TrimFitsOrMinimal(w, KeepGrounded(lead + [w.Summary(text)] + recent));
  }

  /** The result fits the budget, or nothing is left to drop; a list that already fits
      comes back unchanged. */
  lemma FittedFitsOrMinimal(w: Window, ms: seq<Message>)
    requires Monotone(w.count)
    ensures w.Fits(ms) ==> Fitted(Some(w), ms) == ms
    ensures w.Fits(Fitted(Some(w), ms)) || Minimal(Fitted(Some(w), ms))
  {
    var compacted := CompactRows(w.shrink, ms);
    TrimFitsOrMinimal(w, compacted);
    if w.summarizer.Some? {
      CompressedFitsOrMinimal(w, w.summarizer.value, compacted);
    }
  }

  /** The row being answered, as compaction may have rewritten it. */
  predicate IsLast(w: Window, m: Message, ms: seq<Message>) {
    ms != [] &&
    var last := ms[|ms| - 1];
    m in {last, CompactRow(w.shrink, last), CompactRow(w.shrink, CompactRow(w.shrink, last))}
  }

  /** The orphan pass keeps a last row whose request is somewhere in its own part. */
  lemma GroundedKeepsLast(front: seq<Message>, recent: seq<Message>)
    requires recent != [] && NonEmptyId(recent[|recent| - 1])
    requires recent[|recent| - 1].role.Tool? ==> recent[|recent| - 1].toolCallId.value in Declared(recent)
    ensures var out := KeepGrounded(front + recent); out != [] && out[|out| - 1] == recent[|recent| - 1]
  {
    hide Declared;
    var init, last := recent[..|recent| - 1], recent[|recent| - 1];
    assert front + recent == (front + init) + [last];
    if last.role.Tool? {
      DroppedLeavesNoTwin(front + init, last);
      ToolDeclaresNothing(init, last);
      assert recent == init + [last];
      DeclaredAppend(front, init);
    } else {
      NonToolStays(front + init, last);
    }
  }

  lemma ToolDeclaresNothing(init: seq<Message>, last: Message)
    requires last.role.Tool?
    ensures Declared(init + [last]) == Declared(init)
  {
    assert (init + [last])[..|init|] == init;
  }

  lemma RebuiltLastRow(w: Window, lead: seq<Message>, text: string, recent: seq<Message>)
    requires Monotone(w.count) && recent != [] && NonEmptyId(recent[|recent| - 1])
    requires recent[|recent| - 1].role.Tool? ==> recent[|recent| - 1].toolCallId.value in Declared(recent)
    ensures Bounded(w.count, w.budget, w.Rebuilt(lead, text, recent), recent[|recent| - 1])
  {
    hide Monotone, Declared, KeepGrounded, Trimmed;
    var whole := KeepGrounded(lead + [w.Summary(text)] + recent);
    GroundedKeepsLast(lead + [w.Summary(text)], recent);
    TrimmedBounded(w.count, w.budget, whole, true);
  }

  lemma SummaryLastRow(w: Window, s: Summarizer, ms: seq<Message>, lead: seq<Message>, older: seq<Message>,
                       recent: seq<Message>)
    requires Monotone(w.count) && ms != [] && recent != [] && recent[|recent| - 1] == ms[|ms| - 1]
    requires NonEmptyId(ms[|ms| - 1])
    requires recent[|recent| - 1].role.Tool? ==> recent[|recent| - 1].toolCallId.value in Declared(recent)
    ensures Bounded(w.count, w.budget, w.Answered(s, ms, lead, older, recent), ms[|ms| - 1])
  {
    hide Monotone, Declared, Trimmed, Window.Rebuilt, Bounded;
    TrimmedBounded(w.count, w.budget, ms, true);
    var summary := s.summarize(w.call, older);
    if summary.Some? {
      RebuiltLastRow(w, lead, summary.value, recent);
    }
  }

  /** A cut that separates no pair leaves the request of the last row on its right. */
  lemma CutKeepsLastRequest(body: seq<Message>, keepRecent: int)
    requires 0 < CutPoint(body, keepRecent) < |body|
    ensures var recent := body[CutPoint(body, keepRecent)..];
            var last := recent[|recent| - 1];
            && last == body[|body| - 1]
            && (last.role.Tool? && last.toolCallId.Some? ==> last.toolCallId.value in Declared(recent))
  {
    hide Declared;
  }

  lemma SummarizedLastRow(w: Window, s: Summarizer, ms: seq<Message>)
    requires Monotone(w.count) && ms != [] && NonEmptyId(ms[|ms| - 1])
    ensures Bounded(w.count, w.budget, w.Summarized(s, ms), ms[|ms| - 1])
  {
    hide Trimmed, Window.Answered, Monotone, Breaks, CutPoint, KeepGrounded, Declared, Bounded;
    TrimmedBounded(w.count, w.budget, ms, true);
    var body := Body(ms, true);
    var b := CutPoint(body, s.KeepRecent());
    if |body| > s.KeepRecent() && b > 0 {
      CutKeepsLastRequest(body, s.KeepRecent());
      SummaryLastRow(w, s, ms, Lead(ms, true), body[..b], body[b..]);
    }
  }

  lemma CompressedLastRow(w: Window, s: Summarizer, ms: seq<Message>)
    requires Monotone(w.count) && ms != [] && NonEmptyId(ms[|ms| - 1]) && !w.Fits(ms)
    ensures Bounded(w.count, w.budget, w.Compressed(s, ms), CompactRow(w.shrink, ms[|ms| - 1]))
  {
    hide Trimmed, Monotone, Bounded, Window.Summarized;
    var compacted := CompactRows(w.shrink, ms);
    SummarizedLastRow(w, s, compacted);
    assert w.Fits(compacted) ==> Bounded(w.count, w.budget, compacted, CompactRow(w.shrink, ms[|ms| - 1])) by {
      FittingIsBounded(w, compacted, CompactRow(w.shrink, ms[|ms| - 1]));
    }
  }

  lemma FittingIsBounded(w: Window, ms: seq<Message>, last: Message)
    ensures w.Fits(ms) ==> Bounded(w.count, w.budget, ms, last)
  {
  }

  /** What is left when nothing fits: a leading system row and the row being answered, at most; a
      row that names no call it answers is not even that. */
  predicate OnlyLast(w: Window, out: seq<Message>, ms: seq<Message>) {
    && Minimal(out)
    && (ms != [] && NonEmptyId(ms[|ms| - 1]) ==>
          forall i | 0 <= i < |out| :: IsLast(w, out[i], ms) || (i == 0 && out[i].role.System?))
    && (ms != [] && !NonEmptyId(ms[|ms| - 1]) ==> forall i | 0 <= i < |out| :: !IsLast(w, out[i], ms))
  }

  lemma TrimmedIds(w: Window, ms: seq<Message>)
    ensures NonEmptyIds(w.Trim(ms))
  {
    var lead, body := Lead(ms, true), Body(ms, true);
    if body != [] {
      KeepGroundedOrphanFree(lead + body[Drops(w.count, w.budget, lead, body, 0)..]);
    }
  }

  /** Whatever does not fit has been through the orphan pass. */
  lemma OverflowIds(w: Window, ms: seq<Message>)
    requires !w.Fits(Fitted(Some(w), ms))
    ensures NonEmptyIds(Fitted(Some(w), ms))
  {
    hide NonEmptyIds, Trimmed, CutPoint, CompactRow;
    var once := CompactRows(w.shrink, ms);
    TrimmedIds(w, once);
    if w.summarizer.Some? {
      var s := w.summarizer.value;
      var twice := CompactRows(w.shrink, once);
      TrimmedIds(w, twice);
      var body := Body(twice, true);
      var b := CutPoint(body, s.KeepRecent());
      var summary := s.summarize(w.call, body[..b]);
      if summary.Some? {
        TrimmedIds(w, KeepGrounded(Lead(twice, true) + [w.Summary(summary.value)] + body[b..]));
      }
      if once == [] {
        TrimmedOfNothing(w);
        NoIds();
      }
    }
  }

  lemma NoIds()
    ensures NonEmptyIds([])
  {
  }

  /** Of any list a result that does not fit is at most a leading system row and the row being
      answered; if that row is a tool row without a usable id, the orphan pass has removed it. */
  lemma FittedOverflowIsLastRow(w: Window, ms: seq<Message>)
    requires Monotone(w.count)
    ensures w.Fits(ms) ==> Fitted(Some(w), ms) == ms
    ensures w.Fits(Fitted(Some(w), ms)) || OnlyLast(w, Fitted(Some(w), ms), ms)
  {
    hide Trimmed, Window.Compressed, Monotone, NonEmptyIds, IsLast;
    var out, once := Fitted(Some(w), ms), CompactRows(w.shrink, ms);
    if !w.Fits(out) {
      FittedFitsOrMinimal(w, ms);
      if ms != [] && NonEmptyId(ms[|ms| - 1]) {
        UsableLastRow(w, ms);
      } else if ms != [] {
        OverflowIds(w, ms);
        forall i | 0 <= i < |out| ensures !IsLast(w, out[i], ms) {
          assert out[i] in out;
          UnusableRow(w, out, ms, i);
        }
      }
    }
  }

  lemma UnusableRow(w: Window, out: seq<Message>, ms: seq<Message>, i: nat)
    requires NonEmptyIds(out) && i < |out| && ms != [] && !NonEmptyId(ms[|ms| - 1])
    ensures !IsLast(w, out[i], ms)
  {
    assert out[i] in out;
  }

  lemma UsableLastRow(w: Window, ms: seq<Message>)
    requires Monotone(w.count) && ms != [] && NonEmptyId(ms[|ms| - 1]) && !w.Fits(Fitted(Some(w), ms))
    ensures var out := Fitted(Some(w), ms);
            forall i | 0 <= i < |out| :: IsLast(w, out[i], ms) || (i == 0 && out[i].role.System?)
  {
    hide Trimmed, Window.Compressed, CompactRow, Monotone;
    var once := CompactRows(w.shrink, ms);
    CompactedId(w, ms[|ms| - 1]);
    TrimmedBounded(w.count, w.budget, once, true);
    if w.summarizer.Some? && !w.Fits(once) {
      CompressedLastRow(w, w.summarizer.value, once);
    }
  }

  lemma CompactedId(w: Window, m: Message)
    ensures NonEmptyId(CompactRow(w.shrink, m)) <==> NonEmptyId(m)
  {
  }

  lemma TrimmedOfNothing(w: Window)
    ensures w.Trim([]) == []
    ensures forall s :: w.Compressed(s, []) == []
  {
  }

  // --- Every path, in plain terms --------------------------------------------------------

  /** A list that fits is left alone; else it is compacted, and if that does not do and nobody
      summarises it is trimmed. */
  lemma FittedExactly(w: Window, ms: seq<Message>)
    ensures var once, out := CompactRows(w.shrink, ms), Fitted(Some(w), ms);
            && (w.Fits(ms) ==> out == ms)
            && (!w.Fits(ms) && w.Fits(once) ==> out == once)
            && (!w.Fits(ms) && !w.Fits(once) && w.summarizer.None? ==> out == Trimmed(w.count, w.budget, once, true))
    ensures w.Fits(ms) <==> w.count(ms) <= w.budget.maxTokens - w.budget.reserveForReply
  {
    hide Trimmed, CompactRow;
  }

  /** A list apart: its leading system row, what a summary would replace, and what it would spare. */
  datatype Parts = Parts(lead: seq<Message>, older: seq<Message>, recent: seq<Message>)

  /** Spared are as many of the last rows as configured, at least one, and what else a pair-safe cut
      needs. */
  predicate Parted(s: Summarizer, ms: seq<Message>, parts: Parts) {
    var body, spared := parts.older + parts.recent, if s.keepRecentSetting >= 1 then s.keepRecentSetting else 1;
    && parts.lead + body == ms && (parts.lead == if ms != [] && ms[0].role.System? then [ms[0]] else [])
    && |parts.older| == if |body| <= spared then 0 else CutPoint(body, spared)
  }

  /** With a summariser the list is compacted again. If that does not do either and the summariser answers,
      a system row with what it said stands for exactly the rows before the cut; the orphan pass follows,
      and trimming if the rebuilt list does not fit. Without an answer the list is trimmed. */
  lemma SummarisedExactly(w: Window, s: Summarizer, ms: seq<Message>) returns (parts: Parts)
    requires w.summarizer == Some(s) && ms != [] && !w.Fits(ms) && !w.Fits(CompactRows(w.shrink, ms))
    ensures var twice, out := CompactRows(w.shrink, CompactRows(w.shrink, ms)), Fitted(Some(w), ms);
            && Parted(s, twice, parts)
            && (w.Fits(twice) ==> out == twice)
            && (!w.Fits(twice) && (parts.older == [] || s.summarize(w.call, parts.older).None?) ==>
                  out == Trimmed(w.count, w.budget, twice, true))
            && (!w.Fits(twice) && parts.older != [] && s.summarize(w.call, parts.older).Some? ==>
                  var said := s.summarize(w.call, parts.older).value;
                  var m := Message(System, "Earlier-conversation summary:\n" + said);
                  var rebuilt := KeepGrounded(parts.lead + [m] + parts.recent);
                  out == if w.Fits(rebuilt) then rebuilt else Trimmed(w.count, w.budget, rebuilt, true))
  {
    hide Trimmed, CompactRow, KeepGrounded, Breaks;
    var twice := CompactRows(w.shrink, CompactRows(w.shrink, ms));
    var body := Body(twice, true);
    var b := if |body| <= s.KeepRecent() then 0 else CutPoint(body, s.KeepRecent());
    parts := Parts(Lead(twice, true), body[..b], body[b..]);
    assert parts.older + parts.recent == body;
  }

  lemma TrimmedKeepsQuestion(w: Window, ms: seq<Message>)
    requires ms != [] && !ms[|ms| - 1].role.Tool?
    ensures var out := w.Trim(ms); out != [] && out[|out| - 1] == ms[|ms| - 1]
  {
    hide KeepGrounded;
    var lead, body := Lead(ms, true), Body(ms, true);
    if body != [] {
      var d := Drops(w.count, w.budget, lead, body, 0);
      assert lead + body[d..] == (lead + body[d..|body| - 1]) + [ms[|ms| - 1]];
      NonToolStays(lead + body[d..|body| - 1], ms[|ms| - 1]);
    }
  }

  lemma RebuiltKeepsQuestion(w: Window, lead: seq<Message>, text: string, recent: seq<Message>)
    requires recent != [] && !recent[|recent| - 1].role.Tool?
    ensures var out := w.Rebuilt(lead, text, recent); out != [] && out[|out| - 1] == recent[|recent| - 1]
  {
    hide KeepGrounded, Trimmed;
    var front, n := lead + [w.Summary(text)] + recent[..|recent| - 1], |recent| - 1;
    assert lead + [w.Summary(text)] + recent == front + [recent[n]];
    NonToolStays(front, recent[n]);
    TrimmedKeepsQuestion(w, KeepGrounded(lead + [w.Summary(text)] + recent));
  }

  lemma SummarizedKeepsQuestion(w: Window, s: Summarizer, ms: seq<Message>)
    requires ms != [] && !ms[|ms| - 1].role.Tool?
    ensures var out := w.Summarized(s, ms); out != [] && out[|out| - 1] == ms[|ms| - 1]
  {
    hide Trimmed, Window.Rebuilt, Breaks;
    TrimmedKeepsQuestion(w, ms);
    var body := Body(ms, true);
    var b := CutPoint(body, s.KeepRecent());
    var summary := s.summarize(w.call, body[..b]);
    if |body| > s.KeepRecent() && b > 0 && summary.Some? {
      RebuiltKeepsQuestion(w, Lead(ms, true), summary.value, body[b..]);
    }
  }

  /** Whatever is compacted, summarised or dropped, a last row that is no tool row - the question being
      answered - stays last, as it is. */
  lemma QuestionStays(window: Option<Window>, ms: seq<Message>)
    requires ms != [] && !ms[|ms| - 1].role.Tool?
    ensures var out := Fitted(window, ms); out != [] && out[|out| - 1] == ms[|ms| - 1]
  {
    hide Trimmed, Window.Summarized;
    if window.Some? {
      var w := window.value;
      var once := CompactRows(w.shrink, ms);
      TrimmedKeepsQuestion(w, once);
      if w.summarizer.Some? {
        SummarizedKeepsQuestion(w, w.summarizer.value, CompactRows(w.shrink, once));
      }
    }
  }
}
