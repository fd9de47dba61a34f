/** The reason-act loop: it grows the message list, dispatches tools under its caps, stores
    every row as it lands and streams events, against an arbitrary outside world. */
module ChatService {
  import opened Wrappers
  import opened Messages
  import opened ToolHelpers
  import opened History
  import opened Sources
  import opened Text
  import opened ChatMemory
  import opened ChatRun
  import opened ChatReply
  import TF = ThinkFilter

  datatype Ending = Finished | Failed(code: string)

  datatype Reply = Reply(chunks: seq<Chunk>, ending: Ending)

  /** Everything the loop cannot see inside: the n-th model call, tool dispatch, abort poll and
      memory write may each behave in any way whatsoever. */
  datatype World = World(
    llm: (nat, seq<Message>, bool) -> Reply,
    tool: (nat, ToolCall) -> ToolResult,
    aborted: nat -> bool,
    writeFails: nat -> bool,
    readFails: bool,
    search: string -> Option<seq<Hit>>,
    prelude: (seq<Hit>, bool) -> seq<string>,
    wantsWebSearch: (string, bool) -> bool,
    webSearchArguments: string -> Arguments,
    callSuffix: string,
    notice: (Act, ToolCall) -> ToolResult,
    fold: TF.Fold)

  datatype Config = Config(
    maxSteps: int,
    maxToolCallsPerStep: int,
    setting: Setting,
    shrink: Shrinker,
    registry: Option<set<string>>,
    hasKnowledge: bool)
  {
    /** What ResourceLimits enforces on construction. */
    predicate Valid() { maxSteps >= 1 && maxToolCallsPerStep >= 1 }
  }

  datatype Request = Request(userText: string, useRag: bool, useTools: bool, maxSteps: Option<int>,
                             persistUser: bool, quiet: bool)

  datatype Outcome = Completed | Stopped(code: string) | Crashed

  const ABORTED := "ABORTED"
  const MEMORY_READ_FAILED := "memory_read_failed"
  const MEMORY_WRITE_FAILED := "memory_write_failed"
  const RETRIEVAL_FAILED := "retrieval_failed"

  /** What a turn has shown the reader and recorded about its tools. */
  datatype Ledger = Ledger(
    events: seq<Event>,
    sources: seq<Source>,
    executedKeys: set<string>,
    executedCounts: map<string, nat>,
    dispatches: nat)

  /** The loop's local variables; the last three, and the ledger's dispatches, count how often the
      world was consulted. */
  datatype Turn = Turn(
    messages: seq<Message>,
    usage: Option<string>,
    ledger: Ledger,
    polls: nat,
    writes: nat,
    calls: nat)
  {
    function Emit(e: Event): Turn { this.(ledger := ledger.(events := ledger.events + [e])) }

    /** As it was before its last event. */
    function Before(): Turn
      requires ledger.events != []
    {
      this.(ledger := ledger.(events := ledger.events[..|ledger.events| - 1]))
    }
  }

  function CountOf(counts: map<string, nat>, name: string): nat {
    if name in counts then counts[name] else 0
  }

  /** The first `polls` polls saw no abort and the first `writes` writes did not fail. */
  predicate Clear(world: World, polls: nat, writes: nat) {
    && (forall p: nat | p < polls :: !world.aborted(p))
    && (forall w: nat | w < writes :: !world.writeFails(w))
  }

  lemma ClearNext(world: World, polls: nat, writes: nat)
    requires Clear(world, polls, writes)
    ensures !world.aborted(polls) ==> Clear(world, polls + 1, writes)
    ensures !world.writeFails(writes) ==> Clear(world, polls, writes + 1)
  {
  }

  /** A turn stopped in a model call made after this many polls and writes: an abort seen while the
      reply came in, a failure of the model, or a failure to store the row. */
  predicate StoppedAsking(world: World, reply: Reply, polls: nat, writes: nat, now: Turn, code: string) {
    || (code == ABORTED && polls < now.polls <= polls + |reply.chunks| && now.writes == writes
        && Clear(world, now.polls - 1, writes) && world.aborted(now.polls - 1))
    || (reply.ending == Failed(code) && now.polls == polls + |reply.chunks| && now.writes == writes
        && Clear(world, now.polls, writes))
    || (reply.ending.Finished? && code == MEMORY_WRITE_FAILED && now.polls == polls + |reply.chunks|
        && now.writes == writes + 1 && Clear(world, now.polls, writes) && world.writeFails(writes))
  }

  /** A turn stopped at its next poll, or at the write after it that was to store `lost`. */
  predicate StoppedWaiting(world: World, polls: nat, writes: nat, now: Turn, lost: seq<Handled>, code: string) {
    && Clear(world, polls, writes) && now.polls == polls + 1
    && if lost == [] then code == ABORTED && world.aborted(polls) && now.writes == writes
       else code == MEMORY_WRITE_FAILED && !world.aborted(polls) && world.writeFails(writes) && now.writes == writes + 1
  }

  // --- One streamed model reply ----------------------------------------------------------

  datatype LlmRound = LlmRound(text: string, thinking: string, toolCalls: seq<ToolCall>,
                               usage: Option<string>, aborted: bool, error: Option<string>)

  method EmitPieces(events: seq<Event>, text: string, pieces: seq<TF.Piece>)
      returns (events': seq<Event>, text': string)
    ensures events' == events + EventsOf(pieces)
    ensures text' == text + TokenText(EventsOf(pieces))
  {
    events', text' := events, text;
    for i := 0 to |pieces|
      invariant events' == events + EventsOf(pieces)[..i]
      invariant text' == text + TokenText(EventsOf(pieces)[..i])
    {
      var piece := pieces[i];
      assert EventsOf(pieces)[..i + 1][..i] == EventsOf(pieces)[..i];
      if piece.kind.Thought? {
        events' := events' + [ThoughtEvent(piece.text)];
      } else {
        events', text' := events' + [TokenEvent(piece.text)], text' + piece.text;
      }
    }
    assert EventsOf(pieces)[..|pieces|] == EventsOf(pieces);
  }

  /** Streams one reply: shows the reader its events as they come and gathers what it says. A client
      that aborts has seen the chunks before. */
  method StreamLlmRound(world: World, handed: seq<Message>, offerTools: bool, turn: Turn)
    returns (turn': Turn, round: LlmRound)
    requires Clear(world, turn.polls, turn.writes)
    ensures turn' == turn.(ledger := turn.ledger.(events := turn'.ledger.events), polls := turn'.polls,
                           calls := turn.calls + 1)
    ensures var reply := world.llm(turn.calls, handed, offerTools);
      if round.aborted then StoppedAsking(world, reply, turn.polls, turn.writes, turn', ABORTED)
      else Clear(world, turn'.polls, turn'.writes) && turn'.polls == turn.polls + |reply.chunks|
    ensures round.aborted ==>
      && turn.polls < turn'.polls <= turn.polls + |world.llm(turn.calls, handed, offerTools).chunks|
      && world.aborted(turn'.polls - 1)
    ensures var reply := world.llm(turn.calls, handed, offerTools);
      !round.aborted ==>
        match reply.ending
        case Failed(code) => round.error == Some(code)
        case Finished =>
          && round.error == None
          && round.text == AnswerIn(world.fold, reply.chunks)
          && round.toolCalls == AllCalls(reply.chunks)
          && round.thinking == AllThinking(reply.chunks)
          && round.usage == LastUsage(reply.chunks)
    ensures var reply, seen := world.llm(turn.calls, handed, offerTools), turn'.polls - turn.polls;
      turn'.ledger.events == turn.ledger.events
        + if round.aborted then Shown(world.fold, reply.chunks[..seen - 1]) + [ErrorEvent(ABORTED)]
          else if reply.ending.Failed? then Shown(world.fold, reply.chunks)
          else ReplyEvents(world.fold, reply.chunks)
  {
    hide TokenText, Clear, FilterAfter, Shown, EventsOf, Deltas, AllThinking, AllCalls, LastUsage, AnswerIn,
         ReplyEvents, TF.Drained, TF.Settles, TF.TagFree;
    var reply := world.llm(turn.calls, handed, offerTools);
    var chunks := reply.chunks;
    var filter := new TF.ThinkTagStreamFilter(world.fold);
    turn' := turn.(calls := turn.calls + 1);
    round := LlmRound("", "", [], None, false, None);
    NothingStreamed(world.fold, turn.ledger.events);
    for i := 0 to |chunks|
      invariant filter.fold == world.fold
      invariant turn' == turn.(ledger := turn.ledger.(events := turn'.ledger.events), polls := turn'.polls,
                               calls := turn.calls + 1)
      invariant Clear(world, turn'.polls, turn'.writes) && turn'.polls == turn.polls + i
      invariant Streamed(world.fold, turn.ledger.events, turn'.ledger.events, round, chunks[..i], filter.buffer,
                         filter.inThink)
    {
      var chunk := chunks[i];
      ClearNext(world, turn'.polls, turn'.writes);
      turn' := turn'.(polls := turn'.polls + 1);
      if world.aborted(turn'.polls - 1) {
        turn' := turn'.Emit(ErrorEvent(ABORTED));
        round := round.(aborted := true);
        return;
      }
      var events;
      events, round := ShowChunk(filter, chunks, i, turn.ledger.events, turn'.ledger.events, round);
      turn' := turn'.(ledger := turn'.ledger.(events := events));
    }
    assert chunks[..|chunks|] == chunks;
    var events;
    events, round := CloseReply(filter, reply, turn.ledger.events, turn'.ledger.events, round);
    turn' := turn'.(ledger := turn'.ledger.(events := events));
  }

  /** What a reply says once it is over. */
  function RoundSaid(fold: TF.Fold, reply: Reply): LlmRound {
    LlmRound(AnswerIn(fold, reply.chunks), AllThinking(reply.chunks), AllCalls(reply.chunks), LastUsage(reply.chunks),
             false, None)
  }

  /** When the reply is over the splitter releases what it holds, unless the model failed. */
  method CloseReply(filter: TF.ThinkTagStreamFilter, reply: Reply, ghost origin: seq<Event>, events: seq<Event>,
                    round: LlmRound)
    returns (events': seq<Event>, round': LlmRound)
    requires Streamed(filter.fold, origin, events, round, reply.chunks, filter.buffer, filter.inThink)
    modifies filter
    ensures !round'.aborted
    ensures if reply.ending.Failed? then round'.error == Some(reply.ending.code)
            else round' == RoundSaid(filter.fold, reply)
    ensures events' == origin + if reply.ending.Failed? then Shown(filter.fold, reply.chunks)
                                else ReplyEvents(filter.fold, reply.chunks)
  {
    hide TokenText, FilterAfter, Shown, EventsOf, AllThinking, AllCalls, LastUsage, AnswerIn, TF.Drained, TF.Settles,
         TF.TagFree;
    events', round' := events, round;
    if reply.ending.Failed? {
      round' := round'.(error := Some(reply.ending.code));
      return;
    }
    var pieces := filter.Flush();
    var text;
    events', text := EmitPieces(events', round'.text, pieces);
    round' := round'.(text := text);
    ReplyText(filter.fold, reply.chunks);
    TokenTextAppend(Shown(filter.fold, reply.chunks), EventsOf(pieces));
    assert origin + Shown(filter.fold, reply.chunks) + EventsOf(pieces)
           == origin + (Shown(filter.fold, reply.chunks) + EventsOf(pieces));
  }

  /** What has been shown and gathered of the chunks so far, and what the splitter holds back. */
  predicate Streamed(fold: TF.Fold, origin: seq<Event>, events: seq<Event>, round: LlmRound, chunks: seq<Chunk>,
                     b: string, t: bool) {
    && events == origin + Shown(fold, chunks)
    && FilterAfter(fold, chunks).buffer == b && FilterAfter(fold, chunks).inThink == t
    && round == LlmRound(TokenText(Shown(fold, chunks)), AllThinking(chunks), AllCalls(chunks), LastUsage(chunks),
                         false, None)
  }

  lemma NothingStreamed(fold: TF.Fold, events: seq<Event>)
    ensures Streamed(fold, events, events, LlmRound("", "", [], None, false, None), [], "", false)
  {
    assert events + [] == events;
  }

  /** Shows one chunk: its thinking, then what the splitter releases of its text. */
  method ShowChunk(filter: TF.ThinkTagStreamFilter, chunks: seq<Chunk>, i: nat, ghost origin: seq<Event>,
                   events: seq<Event>, round: LlmRound)
    returns (events': seq<Event>, round': LlmRound)
    requires i < |chunks|
    requires Streamed(filter.fold, origin, events, round, chunks[..i], filter.buffer, filter.inThink)
    modifies filter
    ensures Streamed(filter.fold, origin, events', round', chunks[..i + 1], filter.buffer, filter.inThink)
  {
    hide TokenText, EventsOf, Deltas, AllThinking, AllCalls, LastUsage, Shown, TF.Drained, TF.Settles, TF.TagFree;
    var chunk := chunks[i];
    ChunkNext(chunks, i);
    ghost var before, upTo := chunks[..i], chunks[..i + 1];
    assert upTo[..i] == before && upTo[i] == chunk;
    events', round' := events, round;
    if chunk.thinking != "" {
      round' := round'.(thinking := round'.thinking + chunk.thinking);
      events' := events' + [ThoughtEvent(chunk.thinking)];
    } else {
      assert round'.thinking + "" == round'.thinking;
    }
    assert events' == events + ThinkingEvents(chunk);
    ghost var cut: seq<TF.Piece> := [];
    NothingShownOf(events', round'.text);
    if chunk.delta != "" {
      var pieces := filter.Feed(chunk.delta);
      cut := pieces;
      var text;
      events', text := EmitPieces(events', round'.text, pieces);
      round' := round'.(text := text);
    }
    assert events' == events + ThinkingEvents(chunk) + EventsOf(cut);
    round' := round'.(toolCalls := round'.toolCalls + chunk.toolCalls);
    if chunk.usage.Some? {
      round' := round'.(usage := chunk.usage);
    }
    ChunkShown(filter.fold, upTo, chunk, cut, origin);
  }

  /** A chunk adds its thinking and what the splitter released for it. */
  lemma {:induction false} ChunkShown(fold: TF.Fold, chunks: seq<Chunk>, chunk: Chunk, cut: seq<TF.Piece>,
                                      origin: seq<Event>)
    requires chunks != [] && chunk == chunks[|chunks| - 1] && cut == FilterAfter(fold, chunks).pieces
    ensures var before := Shown(fold, chunks[..|chunks| - 1]);
            && origin + before + ThinkingEvents(chunk) + EventsOf(cut) == origin + Shown(fold, chunks)
            && TokenText(before) + TokenText(EventsOf(cut)) == TokenText(Shown(fold, chunks))
  {
    hide TokenText, EventsOf, FilterAfter;
    var before, thought, events := Shown(fold, chunks[..|chunks| - 1]), ThinkingEvents(chunk), EventsOf(cut);
    assert Shown(fold, chunks) == before + (thought + events);
    assert origin + before + thought + events == origin + (before + (thought + events));
    ThinkingText(chunk);
    TokenTextAppend(thought, events);
    TokenTextAppend(before, thought + events);
    assert "" + TokenText(events) == TokenText(events);
  }

  lemma NothingShownOf(events: seq<Event>, text: string)
    ensures EventsOf([]) == [] && events + EventsOf([]) == events && text + TokenText(EventsOf([])) == text
  {
  }

  predicate LastIs(es: seq<Event>, e: Event) { es != [] && es[|es| - 1] == e }

  // --- Handling requested calls ----------------------------------------------------------

  /** What the n-th dispatch gives, or the notice for skipping a call. */
  function ResultOf(world: World, n: nat, act: Act, call: ToolCall): ToolResult {
    if act.Dispatched? then world.tool(n, call) else world.notice(act, call)
  }

  /** Every result in the log is what the world gave for that call at that moment. */
  predicate Told(world: World, log: seq<Handled>) {
    log == [] ||
    var init, last := log[..|log| - 1], log[|log| - 1];
    Told(world, init) && last.result == ResultOf(world, TotalDispatches(init), last.act, last.call)
  }

  lemma ToldSnoc(world: World, log: seq<Handled>, h: Handled)
    ensures Told(world, log + [h]) <==>
            Told(world, log) && h.result == ResultOf(world, TotalDispatches(log), h.act, h.call)
  {
    assert (log + [h])[..|log|] == log;
  }

  /** The ledger agrees with the log of everything handled so far. */
  ghost predicate Books(world: World, ledger: Ledger, hits: seq<Hit>, log: seq<Handled>, cap: int) {
    && Tally(world, ledger, log, cap)
    && ledger.sources == Cited(hits, log)
    && ledger.executedKeys == DispatchedKeys(log)
    && (forall n :: CountOf(ledger.executedCounts, n) == Dispatches(log, n))
  }

  /** The log is one the loop may produce in this world, and every dispatch is in it. */
  predicate Tally(world: World, ledger: Ledger, log: seq<Handled>, cap: int) {
    LogOk(log, cap) && Told(world, log) && ledger.dispatches == TotalDispatches(log)
  }

  lemma BooksTally(world: World, ledger: Ledger, hits: seq<Hit>, log: seq<Handled>, cap: int)
    requires Books(world, ledger, hits, log, cap)
    ensures Tally(world, ledger, log, cap) && ledger.sources == Cited(hits, log)
  {
  }

  lemma BooksIgnoreEvents(world: World, ledger: Ledger, ledger': Ledger, hits: seq<Hit>, log: seq<Handled>, cap: int)
    requires ledger' == ledger.(events := ledger'.events)
    ensures Books(world, ledger, hits, log, cap) <==> Books(world, ledger', hits, log, cap)
    ensures Tally(world, ledger, log, cap) <==> Tally(world, ledger', log, cap)
  {
  }

  lemma BooksAfterCall(world: World, ledger: Ledger, ledger': Ledger, hits: seq<Hit>, log: seq<Handled>, cap: int,
                       h: Handled)
    requires Books(world, ledger, hits, log, cap)
    requires h.act == Decide(log, h.index, cap, h.call)
    requires h.result == ResultOf(world, ledger.dispatches, h.act, h.call)
    requires ledger'.dispatches == ledger.dispatches + (if h.act.Dispatched? then 1 else 0)
    requires ledger'.sources == ledger.sources + Ranked(ToolPayloads(h.result), |ledger.sources| + 1)
    requires ledger'.executedKeys
             == ledger.executedKeys + (if h.act.Dispatched? then {ToolCallKey(h.call)} else {})
    requires ledger'.executedCounts
             == if h.act.Dispatched?
                then ledger.executedCounts[h.call.name := CountOf(ledger.executedCounts, h.call.name) + 1]
                else ledger.executedCounts
    ensures Books(world, ledger', hits, log + [h], cap)
  {
    hide LogOk, Cited, DispatchedKeys, Dispatches, Decide, ToolCallKey, Ranked, Told, TotalDispatches;
    LogSnoc(log, h, cap, hits);
    ToldSnoc(world, log, h);
  }

  /** A round repeats what the model replied to its call: the answer text outside think tags,
      the thinking, and the requested tools unless they were switched off. */
  predicate FromModel(world: World, offerTools: bool, n: nat, r: Round) {
    var reply := world.llm(n, r.handed, offerTools && !r.nudged);
    && reply.ending.Finished?
    && r.streamed == AnswerIn(world.fold, reply.chunks)
    && r.row.thinking == AllThinking(reply.chunks)
    && r.row.toolCalls == (if r.nudged then [] else AllCalls(reply.chunks))
  }

  predicate Honest(world: World, offerTools: bool, rounds: seq<Round>) {
    forall n | 0 <= n < |rounds| :: FromModel(world, offerTools, n, rounds[n])
  }

  lemma HonestSnoc(world: World, offerTools: bool, rounds: seq<Round>, r: Round, handled: seq<Handled>)
    requires Honest(world, offerTools, rounds) && FromModel(world, offerTools, |rounds|, r)
    ensures Honest(world, offerTools, rounds + [r.(handled := handled)])
  {
  }

  // --- What a turn shows ---------------------------------------------------------------------

  const THINKING := "Thinking through the request"
  const SEARCHING_KNOWLEDGE := "Searching local knowledge base"
  const SEARCHING_WEB := "Searching web"
  const LIMIT_REACHED := "Tool step limit reached; synthesizing from collected results"

  function Running(call: ToolCall): string { "Running tool: " + call.name }

  /** A handled call: what announces it, the call, its result. */
  function CallEvents(thought: string, h: Handled): seq<Event> {
    [ThoughtEvent(thought), ToolCallEvent(h.call), ToolResultEvent(h.call, h.result.content, h.result.isError)]
  }

  function CallsEvents(hs: seq<Handled>): seq<Event> {
    if hs == [] then []
    else CallsEvents(hs[..|hs| - 1]) + CallEvents(Running(hs[|hs| - 1].call), hs[|hs| - 1])
  }

  lemma CallsEventsNext(hs: seq<Handled>, h: Handled)
    ensures CallsEvents(hs + [h]) == CallsEvents(hs) + CallEvents(Running(h.call), h) && CallsEvents([]) == []
  {
    assert (hs + [h])[..|hs|] == hs;
  }

  /** Each call is announced, shown, and followed by its result; nothing else comes between. */
  lemma {:induction false} CallsAreShown(hs: seq<Handled>, k: nat)
    requires k < |hs|
    ensures |CallsEvents(hs)| == 3 * |hs|
    ensures CallsEvents(hs)[3 * k] == ThoughtEvent("Running tool: " + hs[k].call.name)
    ensures CallsEvents(hs)[3 * k + 1] == ToolCallEvent(hs[k].call)
    ensures CallsEvents(hs)[3 * k + 2] == ToolResultEvent(hs[k].call, hs[k].result.content, hs[k].result.isError)
  {
    var n := |hs| - 1;
    if n > 0 {
      CallsAreShown(hs[..n], if k < n then k else 0);
    }
  }

  /** A blank answer is shown, and stored, as the fallback. */
  function FallbackEvents(r: Round): seq<Event> { if BlankAnswer(r) then [TokenEvent(r.row.content)] else [] }

  function NudgeEvents(nudged: bool): seq<Event> { if nudged then [ThoughtEvent(LIMIT_REACHED)] else [] }

  function ReplyTo(world: World, offerTools: bool, n: nat, handed: seq<Message>, nudged: bool): Reply {
    world.llm(n, handed, offerTools && !nudged)
  }

  /** A stored round: the nudge, the reply, the fallback of a blank answer, the calls handled. */
  function RoundEvents(world: World, offerTools: bool, n: nat, r: Round): seq<Event> {
    NudgeEvents(r.nudged) + ReplyEvents(world.fold, ReplyTo(world, offerTools, n, r.handed, r.nudged).chunks)
    + FallbackEvents(r) + CallsEvents(r.handled)
  }

  function Script(world: World, offerTools: bool, rounds: seq<Round>): seq<Event> {
    if rounds == [] then []
    else
      var n := |rounds| - 1;
      Script(world, offerTools, rounds[..n]) + RoundEvents(world, offerTools, n, rounds[n])
  }

  /** What is shown of a reply that was not stored: all of it, with the fallback of a blank answer, when
      storing failed; else what came before the abort, or before the model failed. */
  function Heard(world: World, setting: Setting, reply: Reply, nudged: bool, sources: seq<Source>, polls: nat,
                 writes: nat, now: Turn): seq<Event> {
    var seen := now.polls - polls;
    if now.writes > writes then
      ReplyEvents(world.fold, reply.chunks)
      + (if (nudged || AllCalls(reply.chunks) == []) && Blank(AnswerIn(world.fold, reply.chunks))
         then [TokenEvent(setting.Fallback(sources))] else [])
    else if 0 < seen <= |reply.chunks| && world.aborted(now.polls - 1) then Shown(world.fold, reply.chunks[..seen - 1])
    else Shown(world.fold, reply.chunks)
  }

  /** Announces one requested call, decides whether to run it, and reports its result. */
  method HandleCall(cfg: Config, world: World, turn: Turn, index: nat, tc: ToolCall,
                    ghost hits: seq<Hit>, ghost log: seq<Handled>)
    returns (turn': Turn, h: Handled)
    requires Books(world, turn.ledger, hits, log, cfg.maxToolCallsPerStep)
    ensures h.index == index && h.call == tc
    ensures h.act == Decide(log, index, cfg.maxToolCallsPerStep, tc)
    ensures h.result == if h.act.Dispatched? then world.tool(turn.ledger.dispatches, tc) else world.notice(h.act, tc)
    ensures turn'.ledger.dispatches == turn.ledger.dispatches + if h.act.Dispatched? then 1 else 0
    ensures Books(world, turn'.ledger, hits, log + [h], cfg.maxToolCallsPerStep)
    ensures turn'.ledger.events == turn.ledger.events + CallEvents(Running(tc), h)
    ensures turn'.messages == turn.messages && turn'.calls == turn.calls && turn'.usage == turn.usage
    ensures turn'.polls == turn.polls && turn'.writes == turn.writes
  {
    hide LogOk, Cited, DispatchedKeys, Dispatches, Told, TotalDispatches, ToolCallKey, Ranked, ToolTurnLimit;
    turn' := turn.Emit(ThoughtEvent(Running(tc))).Emit(ToolCallEvent(tc));
    var toolKey := ToolCallKey(tc);
    var toolLimit := ToolTurnLimit(tc.name);
    var act: Act;
    var result: ToolResult;
    var ledger := turn'.ledger;
    if index >= cfg.maxToolCallsPerStep {
      act, result := OverCap, world.notice(OverCap, tc);
    } else if toolLimit.Some? && CountOf(ledger.executedCounts, tc.name) >= toolLimit.value {
      act, result := OverLimit, world.notice(OverLimit, tc);
    } else if toolKey in ledger.executedKeys {
      act, result := Duplicate, world.notice(Duplicate, tc);
    } else {
      act := Dispatched;
      ledger := ledger.(executedKeys := ledger.executedKeys + {toolKey});
      result := world.tool(ledger.dispatches, tc);
      ledger := ledger.(dispatches := ledger.dispatches + 1);
      var count := CountOf(ledger.executedCounts, tc.name) + 1;
      ledger := ledger.(executedCounts := ledger.executedCounts[tc.name := count]);
    }
    h := Handled(index, tc, act, result);
    var newSources := SourcesFromToolResult(result, |ledger.sources| + 1);
    ledger := ledger.(sources := ledger.sources + newSources);
    turn' := turn'.(ledger := ledger).Emit(ToolResultEvent(tc, result.content, result.isError));
    BooksAfterCall(world, turn.ledger, turn'.ledger, hits, log, cfg.maxToolCallsPerStep, h);
  }

  lemma ToRowsAppend(a: seq<Message>, b: seq<Message>)
    ensures ToRows(a + b) == ToRows(a) + ToRows(b)
  {
  }

  /** Stores the result row of a handled call. */
  method StoreAnswer(world: World, memory: ChatMemory, turn: Turn, h: Handled)
      returns (turn': Turn, stop: Option<Outcome>)
    modifies memory
    ensures stop == if world.writeFails(turn.writes) then Some(Stopped(MEMORY_WRITE_FAILED)) else None
    ensures turn' == if stop.Some? then turn.(writes := turn.writes + 1).Emit(ErrorEvent(MEMORY_WRITE_FAILED))
                     else turn.(writes := turn.writes + 1, messages := turn.messages + ToolRows([h]))
    ensures memory.rows == old(memory.rows) + if stop.Some? then [] else ToRows(ToolRows([h]))
  {
    hide ToRow, ToRows, ToolRow, ToolRows;
    stop := None;
    turn' := turn.(writes := turn.writes + 1);
    if world.writeFails(turn'.writes - 1) {
      turn', stop := turn'.Emit(ErrorEvent(MEMORY_WRITE_FAILED)), Some(Stopped(MEMORY_WRITE_FAILED));
      return;
    }
    OneStored(h);
    memory.Append(ToolRow(h));
    turn' := turn'.(messages := turn'.messages + [ToolRow(h)]);
  }

  /** Polls, handles one call, and stores its result row. */
  method AnswerOne(cfg: Config, world: World, memory: ChatMemory, turn: Turn, index: nat, tc: ToolCall,
                   ghost hits: seq<Hit>, ghost log: seq<Handled>)
    returns (turn': Turn, stop: Option<Outcome>, ghost handled: seq<Handled>, ghost lost: seq<Handled>)
    requires Books(world, turn.ledger, hits, log, cfg.maxToolCallsPerStep) && Clear(world, turn.polls, turn.writes)
    modifies memory
    ensures |handled| + |lost| <= 1 && (stop.Some? ==> stop.value.Stopped?)
    ensures handled != [] ==> handled[0].index == index && handled[0].call == tc
    ensures lost != [] ==> lost[0].index == index && lost[0].call == tc
    ensures memory.rows == old(memory.rows) + ToRows(ToolRows(handled))
    ensures turn'.calls == turn.calls && turn'.usage == turn.usage
    ensures turn'.ledger.events == turn.ledger.events + CallsEvents(handled + lost)
                                   + (if stop.Some? then [ErrorEvent(stop.value.code)] else [])
    ensures stop == None ==>
      && |handled| == 1 && turn'.messages == turn.messages + ToolRows(handled)
      && Clear(world, turn'.polls, turn'.writes)
      && turn'.polls == turn.polls + 1 && turn'.writes == turn.writes + 1
      && Books(world, turn'.ledger, hits, log + handled, cfg.maxToolCallsPerStep)
    ensures stop.Some? ==>
      && handled == []
      && StoppedWaiting(world, turn.polls, turn.writes, turn', lost, stop.value.code)
      && Tally(world, turn'.ledger, log + lost, cfg.maxToolCallsPerStep)
  {
    hide Books, Tally, ToRow, ToRows, ToolRow, ToolRows, Clear, CallsEvents, CallEvents, LogOk, Decide, Told,
         StoppedWaiting;
    stop, handled, lost := None, [], [];
    NothingStored();
    NoCallsShown(turn.ledger.events);
    assert log + [] == log && memory.rows + [] == memory.rows;
    ClearNext(world, turn.polls, turn.writes);
    BooksTally(world, turn.ledger, hits, log, cfg.maxToolCallsPerStep);
    turn' := turn.(polls := turn.polls + 1);
    if world.aborted(turn'.polls - 1) {
      turn', stop := turn'.Emit(ErrorEvent(ABORTED)), Some(Stopped(ABORTED));
      BooksIgnoreEvents(world, turn.ledger, turn'.ledger, hits, log, cfg.maxToolCallsPerStep);
      AbortWaiting(world, turn.polls, turn.writes, turn');
      return;
    }
    var h;
    turn', h := HandleCall(cfg, world, turn', index, tc, hits, log);
    ghost var answered := turn'.ledger;
    OneCallShown(h);
    BooksTally(world, answered, hits, log + [h], cfg.maxToolCallsPerStep);
    ClearNext(world, turn'.polls, turn'.writes);
    turn', stop := StoreAnswer(world, memory, turn', h);
    assert [h] + [] == [h] == [] + [h];
    if stop.Some? {
      BooksIgnoreEvents(world, answered, turn'.ledger, hits, log + [h], cfg.maxToolCallsPerStep);
      lost := [h];
      FailedWaiting(world, turn.polls, turn.writes, turn', h);
    } else {
      NoTail(turn'.ledger.events);
      handled := [h];
    }
  }

  lemma AbortWaiting(world: World, polls: nat, writes: nat, now: Turn)
    requires Clear(world, polls, writes) && world.aborted(polls) && now.polls == polls + 1 && now.writes == writes
    ensures StoppedWaiting(world, polls, writes, now, [], ABORTED)
  {
  }

  lemma FailedWaiting(world: World, polls: nat, writes: nat, now: Turn, h: Handled)
    requires Clear(world, polls, writes) && !world.aborted(polls) && world.writeFails(writes)
    requires now.polls == polls + 1 && now.writes == writes + 1
    ensures StoppedWaiting(world, polls, writes, now, [h], MEMORY_WRITE_FAILED)
  {
  }

  lemma OneStored(h: Handled)
    ensures ToolRows([h]) == [ToolRow(h)] && ToRows(ToolRows([h])) == [ToRow(ToolRow(h))]
  {
    hide ToRow, ToolRow;
  }

  lemma NoCallsShown(events: seq<Event>)
    ensures CallsEvents([] + []) == [] == CallsEvents([]) && events + [] == events
  {
  }

  lemma OneCallShown(h: Handled)
    ensures CallsEvents([h]) == CallEvents(Running(h.call), h)
  {
    CallsEventsNext([], h);
    assert [] + [h] == [h] && [] + CallEvents(Running(h.call), h) == CallEvents(Running(h.call), h);
  }

  lemma ToolRowsAppend(a: seq<Handled>, b: seq<Handled>)
    ensures ToolRows(a + b) == ToolRows(a) + ToolRows(b)
  {
  }

  lemma AnswersStored(start: seq<Row>, messages: seq<Message>, log: seq<Handled>, handled: seq<Handled>,
                      more: seq<Handled>)
    ensures messages + ToolRows(handled) + ToolRows(more) == messages + ToolRows(handled + more)
    ensures start + ToRows(ToolRows(handled)) + ToRows(ToolRows(more)) == start + ToRows(ToolRows(handled + more))
    ensures log + handled + more == log + (handled + more)
  {
    hide ToolRow, ToRow;
    ToolRowsAppend(handled, more);
    ToRowsAppend(ToolRows(handled), ToolRows(more));
  }

  lemma CallsEventsAppend(hs: seq<Handled>, more: seq<Handled>)
    requires |more| <= 1
    ensures CallsEvents(hs + more) == CallsEvents(hs) + CallsEvents(more)
  {
    if more == [] {
      assert hs + more == hs;
    } else {
      CallsEventsNext(hs, more[0]);
      OneCallShown(more[0]);
      assert more == [more[0]];
    }
  }

  /** Answers the calls of one assistant row in order, storing each result as it lands. */
  method AnswerCalls(cfg: Config, world: World, memory: ChatMemory, turn: Turn, calls: seq<ToolCall>,
                     ghost hits: seq<Hit>, ghost log: seq<Handled>)
    returns (turn': Turn, stop: Option<Outcome>, ghost handled: seq<Handled>, ghost lost: seq<Handled>)
    requires Books(world, turn.ledger, hits, log, cfg.maxToolCallsPerStep) && Clear(world, turn.polls, turn.writes)
    modifies memory
    ensures |handled| <= |calls| && (stop.Some? ==> stop.value.Stopped?)
    ensures forall k | 0 <= k < |handled| :: handled[k].index == k && handled[k].call == calls[k]
    ensures memory.rows == old(memory.rows) + ToRows(ToolRows(handled))
    ensures turn'.calls == turn.calls
    ensures turn'.ledger.events == turn.ledger.events + CallsEvents(handled + lost)
                                   + (if stop.Some? then [ErrorEvent(stop.value.code)] else [])
    ensures stop == None ==>
      && |handled| == |calls| && lost == [] && turn'.usage == turn.usage
      && Clear(world, turn'.polls, turn'.writes)
      && turn'.polls == turn.polls + |calls| && turn'.writes == turn.writes + |calls|
      && turn'.messages == turn.messages + ToolRows(handled)
      && Books(world, turn'.ledger, hits, log + handled, cfg.maxToolCallsPerStep)
    ensures stop.Some? ==>
      && |handled| < |calls|
      && StoppedWaiting(world, turn.polls + |handled|, turn.writes + |handled|, turn', lost, stop.value.code)
      && Tally(world, turn'.ledger, log + handled + lost, cfg.maxToolCallsPerStep)
    ensures |lost| <= 1
    ensures lost != [] ==>
      stop == Some(Stopped(MEMORY_WRITE_FAILED)) && lost[0].index == |handled| && lost[0].call == calls[|handled|]
  {
    hide Books, Tally, ToRow, ToRows, ToolRows, Clear, CallsEvents;
    turn', stop, handled, lost := turn, None, [], [];
    assert log + [] == log && memory.rows + [] == memory.rows && turn.messages + [] == turn.messages;
    assert ToRows(ToolRows([])) == [] && ToolRows([]) == [] by { NothingStored(); }
    NoCallsShown(turn.ledger.events);
    for idx := 0 to |calls|
      invariant |handled| == idx && stop == None && lost == []
      invariant Clear(world, turn'.polls, turn'.writes)
      invariant turn'.polls == turn.polls + idx && turn'.writes == turn.writes + idx
      invariant forall k | 0 <= k < |handled| :: handled[k].index == k && handled[k].call == calls[k]
      invariant memory.rows == old(memory.rows) + ToRows(ToolRows(handled))
      invariant turn'.messages == turn.messages + ToolRows(handled)
      invariant turn'.calls == turn.calls && turn'.usage == turn.usage
      invariant turn'.ledger.events == turn.ledger.events + CallsEvents(handled)
      invariant Books(world, turn'.ledger, hits, log + handled, cfg.maxToolCallsPerStep)
    {
      ghost var h;
      turn', stop, h, lost := AnswerOne(cfg, world, memory, turn', idx, calls[idx], hits, log + handled);
      AnswersStored(old(memory.rows), turn.messages, log, handled, h);
      CallsShown(turn.ledger.events, handled, h, lost);
      if stop.Some? {
        return;
      }
      NoTail(turn'.ledger.events);
      handled := handled + h;
    }
    NoTail(turn'.ledger.events);
    assert handled + [] == handled;
  }

  lemma NoTail(events: seq<Event>)
    ensures events + [] == events
  {
  }

  lemma CallsShown(before: seq<Event>, handled: seq<Handled>, h: seq<Handled>, lost: seq<Handled>)
    requires |h| + |lost| <= 1
    ensures before + CallsEvents(handled) + CallsEvents(h + lost)
            == before + CallsEvents(if lost == [] then handled + h else handled + lost)
    ensures h == [] ==> handled + h == handled
  {
    hide CallsEvents;
    CallsEventsAppend(handled, h + lost);
    assert before + CallsEvents(handled) + CallsEvents(h + lost)
           == before + (CallsEvents(handled) + CallsEvents(h + lost));
    assert lost != [] ==> h + lost == lost;
    assert lost == [] ==> h + lost == h;
  }

  lemma NothingStored()
    ensures ToRows(ToolRows([])) == [] && ToolRows([]) == []
  {
  }

  // --- One step of the loop -----------------------------------------------------------------

  /** The rounds so far all asked for tools and got every answer. */
  predicate AllAsked(rounds: seq<Round>) {
    forall r | r in rounds :: Complete(r) && r.row.toolCalls != [] && !r.nudged
  }

  /** Abort polls a round makes: one before it, one per chunk, one per requested call. */
  function PollsIn(world: World, offerTools: bool, n: nat, r: Round): nat {
    (if r.nudged then 0 else 1) + |world.llm(n, r.handed, offerTools && !r.nudged).chunks| + |r.handled|
  }

  function Polls(world: World, offerTools: bool, rounds: seq<Round>): nat {
    if rounds == [] then 0
    else
      var n := |rounds| - 1;
      Polls(world, offerTools, rounds[..n]) + PollsIn(world, offerTools, n, rounds[n])
  }

  /** The usage on record after a round: what its reply reported, else what was there. */
  function UsageAfter(world: World, offerTools: bool, n: nat, r: Round, before: Option<string>): Option<string> {
    var reported := LastUsage(world.llm(n, r.handed, offerTools && !r.nudged).chunks);
    if reported.Some? then reported else before
  }

  function UsageOf(world: World, offerTools: bool, rounds: seq<Round>): Option<string> {
    if rounds == [] then None
    else
      var n := |rounds| - 1;
      UsageAfter(world, offerTools, n, rounds[n], UsageOf(world, offerTools, rounds[..n]))
  }

  /** Where the loop starts from: its prompt, the hits and the automatic search, the polls and writes
      made, and the events shown. */
  datatype Start = Start(base: seq<Message>, hits: seq<Hit>, auto: seq<Handled>, polls: nat, writes: nat,
                         shown: seq<Event>)

  /** The loop has polled and written exactly as often as it must and all went well; its usage is the
      last one reported, and it has shown every round and nothing else. */
  predicate Vigilant(world: World, offerTools: bool, now: Turn, s: Start, rounds: seq<Round>) {
    && Clear(world, now.polls, now.writes)
    && now.polls == s.polls + Polls(world, offerTools, rounds)
    && now.writes == s.writes + |Rows(rounds)|
    && now.usage == UsageOf(world, offerTools, rounds)
    && now.ledger.events == s.shown + Script(world, offerTools, rounds)
  }

  lemma VigilantSnoc(world: World, offerTools: bool, turn: Turn, turn': Turn, s: Start, rounds: seq<Round>, r: Round)
    requires Vigilant(world, offerTools, turn, s, rounds) && Clear(world, turn'.polls, turn'.writes)
    requires turn'.polls == turn.polls + PollsIn(world, offerTools, |rounds|, r)
    requires turn'.writes == turn.writes + 1 + |r.handled|
    requires turn'.usage == UsageAfter(world, offerTools, |rounds|, r, turn.usage)
    requires turn'.ledger.events == turn.ledger.events + RoundEvents(world, offerTools, |rounds|, r)
    ensures Vigilant(world, offerTools, turn', s, rounds + [r])
  {
    hide LastUsage, RoundEvents;
    SnocCounts(world, offerTools, rounds, r);
    assert (rounds + [r])[..|rounds|] == rounds;
    assert s.shown + (Script(world, offerTools, rounds) + RoundEvents(world, offerTools, |rounds|, r))
           == s.shown + Script(world, offerTools, rounds) + RoundEvents(world, offerTools, |rounds|, r);
  }

  lemma SnocCounts(world: World, offerTools: bool, rounds: seq<Round>, r: Round)
    ensures Polls(world, offerTools, rounds + [r])
            == Polls(world, offerTools, rounds) + PollsIn(world, offerTools, |rounds|, r)
    ensures |Rows(rounds + [r])| == |Rows(rounds)| + 1 + |r.handled|
    ensures Script(world, offerTools, rounds + [r])
            == Script(world, offerTools, rounds) + RoundEvents(world, offerTools, |rounds|, r)
  {
    hide RoundEvents;
    assert (rounds + [r])[..|rounds|] == rounds;
  }

  /** Between two steps. */
  ghost predicate Tracks(cfg: Config, world: World, s: Start, turn: Turn, rounds: seq<Round>) {
    && turn.messages == s.base + Rows(rounds)
    && RoundsOk(cfg.setting, s.base, s.hits, s.auto, rounds) && AllAsked(rounds)
    && Books(world, turn.ledger, s.hits, s.auto + LogOf(rounds), cfg.maxToolCallsPerStep)
  }

  /** After the last round, which answered without asking for tools. */
  ghost predicate Concluded(cfg: Config, world: World, s: Start, turn: Turn, rounds: seq<Round>) {
    && RoundsOk(cfg.setting, s.base, s.hits, s.auto, rounds)
    && rounds != [] && rounds[|rounds| - 1].row.toolCalls == [] && Complete(rounds[|rounds| - 1])
    && Books(world, turn.ledger, s.hits, s.auto + LogOf(rounds), cfg.maxToolCallsPerStep)
  }

  /** After the end. */
  predicate Ended(cfg: Config, world: World, s: Start, ledger: Ledger, outcome: Outcome, rounds: seq<Round>,
                  lost: seq<Handled>) {
    && RoundsOk(cfg.setting, s.base, s.hits, s.auto, rounds)
    && Tally(world, ledger, s.auto + LogOf(rounds) + lost, cfg.maxToolCallsPerStep)
    && |lost| <= 1
    && (lost != [] ==> outcome == Stopped(MEMORY_WRITE_FAILED) && rounds != []
                       && lost[0].index == |rounds[|rounds| - 1].handled| < |rounds[|rounds| - 1].row.toolCalls|
                       && lost[0].call == rounds[|rounds| - 1].row.toolCalls[lost[0].index])
  }

  /** A model call whose reply was not stored: what it was handed, and whether nudged. */
  datatype Unstored = Unstored(handed: seq<Message>, nudged: bool)

  /** At most one model call stored nothing; it came after rounds answered in full, and it too
      was handed the fitted list. */
  predicate OpenOk(setting: Setting, base: seq<Message>, rounds: seq<Round>, open: seq<Unstored>) {
    && |open| <= 1
    && (open != [] && rounds != [] ==> Complete(rounds[|rounds| - 1]))
    && (open != [] ==>
          open[0].handed == setting.Handed(|rounds|, base, Rows(rounds), open[0].nudged))
  }

  /** Only the call after the last step is nudged. */
  predicate Paced(rounds: seq<Round>, open: seq<Unstored>, steps: nat) {
    && |rounds| + |open| <= steps + 1
    && (forall n | 0 <= n < |rounds| :: rounds[n].nudged <==> n == steps)
    && (open != [] ==> (open[0].nudged <==> |rounds| == steps))
  }

  /** Without a registry no call is answered. */
  predicate Unarmed(cfg: Config, rounds: seq<Round>) {
    cfg.registry.None? ==> forall n | 0 <= n < |rounds| :: rounds[n].handled == []
  }

  /** Every stored row asked for tools: the turn has not come to its answer. */
  predicate Unfinished(rounds: seq<Round>) {
    forall n | 0 <= n < |rounds| :: rounds[n].row.toolCalls != []
  }

  /** What a turn that stopped early showed after its rounds: the call whose result it could not store,
      or what was heard of a reply it could not store. */
  function LastEvents(cfg: Config, world: World, offerTools: bool, now: Turn, s: Start, rounds: seq<Round>,
                      open: seq<Unstored>, lost: seq<Handled>): seq<Event> {
    if open == [] then CallsEvents(lost)
    else
      var reply := ReplyTo(world, offerTools, |rounds|, open[0].handed, open[0].nudged);
      NudgeEvents(open[0].nudged)
      + Heard(world, cfg.setting, reply, open[0].nudged, Cited(s.hits, s.auto + LogOf(rounds)),
              AskedAfter(world, offerTools, s, rounds, open[0].nudged), s.writes + |Rows(rounds)|, now)
  }

  /** Polls made before a model call after these rounds. */
  function AskedAfter(world: World, offerTools: bool, s: Start, rounds: seq<Round>, nudged: bool): nat {
    s.polls + Polls(world, offerTools, rounds) + (if nudged then 0 else 1)
  }

  /** Where a turn stopped early: in a model call whose reply it could not store, or at the poll or
      write after everything on record. */
  predicate StoppedAt(cfg: Config, world: World, offerTools: bool, now: Turn, s: Start, rounds: seq<Round>,
                      open: seq<Unstored>, lost: seq<Handled>, code: string) {
    && (if open == [] then
          StoppedWaiting(world, s.polls + Polls(world, offerTools, rounds), s.writes + |Rows(rounds)|, now, lost, code)
        else
          && lost == []
          && StoppedAsking(world, ReplyTo(world, offerTools, |rounds|, open[0].handed, open[0].nudged),
                           AskedAfter(world, offerTools, s, rounds, open[0].nudged), s.writes + |Rows(rounds)|,
                           now, code))
    && now.ledger.events == s.shown + Script(world, offerTools, rounds)
                            + LastEvents(cfg, world, offerTools, now, s, rounds, open, lost) + [ErrorEvent(code)]
  }

  /** Turns what a reply said into the row to store; a blank answer becomes the fallback. */
  method ComposeRow(setting: Setting, turn: Turn, round: LlmRound, calls: seq<ToolCall>)
    returns (turn': Turn, row: Message)
    ensures row.role.Assistant? && row.toolCalls == calls && row.sources == turn.ledger.sources
    ensures row.thinking == round.thinking && row.toolCallId == None && row.toolName == None
    ensures var r := Round([], false, round.text, row, []);
            && row.content == (if BlankAnswer(r) then setting.Fallback(row.sources) else round.text)
            && turn' == turn.(ledger := turn.ledger.(events := turn.ledger.events + FallbackEvents(r)))
  {
    turn' := turn;
    var text := round.text;
    if calls == [] && Blank(text) {
      text := setting.Fallback(turn.ledger.sources);
      turn' := turn'.Emit(TokenEvent(text));
    } else {
      assert turn.ledger.events + [] == turn.ledger.events;
    }
    row := Message(Assistant, text, thinking := round.thinking, toolCalls := calls, sources := turn.ledger.sources);
  }

  /** Calls the model on the fitted list. */
  method AskModel(cfg: Config, world: World, turn: Turn, offerTools: bool, ghost nudged: bool)
    returns (turn': Turn, round: LlmRound, handed: seq<Message>, stop: Option<Outcome>)
    requires Clear(world, turn.polls, turn.writes)
    ensures turn'.calls == turn.calls + 1 && handed == Fitted(cfg.setting.WindowAt(turn.calls), turn.messages)
    ensures turn'.ledger == turn.ledger.(events := turn'.ledger.events)
    ensures var reply := world.llm(turn.calls, handed, offerTools);
      stop.Some? ==>
        && stop.value.Stopped? && StoppedAsking(world, reply, turn.polls, turn.writes, turn', stop.value.code)
        && turn'.ledger.events == turn.ledger.events
             + Heard(world, cfg.setting, reply, nudged, turn.ledger.sources, turn.polls, turn.writes, turn')
             + [ErrorEvent(stop.value.code)]
    ensures var reply := world.llm(turn.calls, handed, offerTools);
      stop == None ==>
        && turn'.messages == turn.messages && turn'.writes == turn.writes
        && turn'.polls == turn.polls + |reply.chunks| && Clear(world, turn'.polls, turn'.writes)
        && turn'.ledger.events == turn.ledger.events + ReplyEvents(world.fold, reply.chunks)
        && reply.ending.Finished?
        && round.text == AnswerIn(world.fold, reply.chunks)
        && round.toolCalls == AllCalls(reply.chunks)
        && round.thinking == AllThinking(reply.chunks)
        && turn'.usage == (if LastUsage(reply.chunks).Some? then LastUsage(reply.chunks) else turn.usage)
  {
    hide Fitted, AnswerIn, AllCalls, AllThinking, LastUsage, Shown, ReplyEvents, Clear;
    handed := FitToBudget(cfg.setting.WindowAt(turn.calls), turn.messages);
    turn', round := StreamLlmRound(world, handed, offerTools, turn);
    stop := None;
    ghost var reply := world.llm(turn.calls, handed, offerTools);
    if round.aborted {
      stop := Some(Stopped(ABORTED));
      assert turn.ledger.events + (Shown(world.fold, reply.chunks[..turn'.polls - turn.polls - 1])
                                   + [ErrorEvent(ABORTED)])
             == turn.ledger.events + Shown(world.fold, reply.chunks[..turn'.polls - turn.polls - 1])
                 + [ErrorEvent(ABORTED)];
      return;
    }
    if round.error.Some? {
      NotAborted(world, turn'.polls, turn'.writes);
      turn', stop := turn'.Emit(ErrorEvent(round.error.value)), Some(Stopped(round.error.value));
      return;
    }
    if round.usage.Some? {
      turn' := turn'.(usage := round.usage);
    }
  }

  lemma NotAborted(world: World, polls: nat, writes: nat)
    requires Clear(world, polls, writes)
    ensures polls > 0 ==> !world.aborted(polls - 1)
  {
  }

  /** Calls the model on the fitted list, then composes and stores its row. */
  method StoreRound(cfg: Config, world: World, memory: ChatMemory, turn: Turn, nudged: bool, offerTools: bool,
                    ghost s: Start, ghost rounds: seq<Round>)
    returns (turn': Turn, row: Message, stop: Option<Outcome>, ghost r: Round)
    requires RoundsOk(cfg.setting, s.base, s.hits, s.auto, rounds)
    requires turn.messages == cfg.setting.Offer(s.base, Rows(rounds), nudged) && turn.calls == |rounds|
    requires Books(world, turn.ledger, s.hits, s.auto + LogOf(rounds), cfg.maxToolCallsPerStep)
    requires Clear(world, turn.polls, turn.writes)
    modifies memory
    ensures turn'.calls == turn.calls + 1
    ensures r.handed == cfg.setting.Handed(|rounds|, s.base, Rows(rounds), nudged) && r.nudged == nudged
    ensures var reply := ReplyTo(world, offerTools, |rounds|, r.handed, nudged);
      stop.Some? ==>
        && memory.rows == old(memory.rows) && stop.value.Stopped?
        && StoppedAsking(world, reply, turn.polls, turn.writes, turn', stop.value.code)
        && turn'.ledger.events == turn.ledger.events
             + Heard(world, cfg.setting, reply, nudged, Cited(s.hits, s.auto + LogOf(rounds)), turn.polls, turn.writes,
                     turn')
             + [ErrorEvent(stop.value.code)]
        && Ended(cfg, world, s, turn'.ledger, stop.value, rounds, [])
    ensures stop == None ==>
      && memory.rows == old(memory.rows) + ToRows(RowsOf(r))
      && turn'.messages == turn.messages + RowsOf(r)
      && r == Round(r.handed, nudged, r.streamed, row, [])
      && RoundOk(cfg.setting, s.base, s.hits, s.auto, rounds, r)
      && (r.row.toolCalls != [] ==> !nudged)
      && Books(world, turn'.ledger, s.hits, s.auto + LogOf(rounds), cfg.maxToolCallsPerStep)
      && turn'.ledger.events == turn.ledger.events
           + ReplyEvents(world.fold, ReplyTo(world, offerTools, |rounds|, r.handed, nudged).chunks) + FallbackEvents(r)
    ensures stop == None ==>
      && FromModel(world, offerTools, |rounds|, r) && Clear(world, turn'.polls, turn'.writes)
      && turn'.writes == turn.writes + 1
      && turn'.polls == turn.polls + |ReplyTo(world, offerTools, |rounds|, r.handed, nudged).chunks|
      && turn'.usage == UsageAfter(world, offerTools, |rounds|, r, turn.usage)
  {
    hide Books, Tally, Fitted, RoundsOk, Rows, LogOf, AnswerIn, ToRow, Blank, AllCalls, AllThinking, Cited, Clear,
         RowsOf, RoundOk, AnswersInOrder, LastUsage, ReplyEvents, Shown;
    ghost var log := s.auto + LogOf(rounds);
    var round, handed;
    BooksTally(world, turn.ledger, s.hits, log, cfg.maxToolCallsPerStep);
    turn', round, handed, stop := AskModel(cfg, world, turn, offerTools && !nudged, nudged);
    r := Round(handed, nudged, "", SystemMessage(""), []);
    row := SystemMessage("");
    assert log + [] == log;
    BooksIgnoreEvents(world, turn.ledger, turn'.ledger, s.hits, log, cfg.maxToolCallsPerStep);
    if stop.Some? {
      return;
    }
    var calls := if nudged then [] else round.toolCalls;
    turn', row := ComposeRow(cfg.setting, turn', round, calls);
    r := Round(handed, nudged, round.text, row, []);
    assert FallbackEvents(r) == FallbackEvents(Round([], false, round.text, row, []));
    ClearNext(world, turn'.polls, turn'.writes);
    turn' := turn'.(writes := turn'.writes + 1);
    if world.writeFails(turn'.writes - 1) {
      turn', stop := turn'.Emit(ErrorEvent(MEMORY_WRITE_FAILED)), Some(Stopped(MEMORY_WRITE_FAILED));
      BooksIgnoreEvents(world, turn.ledger, turn'.ledger, s.hits, log, cfg.maxToolCallsPerStep);
      assert turn.ledger.events + (ReplyEvents(world.fold, ReplyTo(world, offerTools, |rounds|, handed, nudged).chunks)
                                   + FallbackEvents(r))
             == turn.ledger.events + ReplyEvents(world.fold,
                                                 ReplyTo(world, offerTools, |rounds|, handed, nudged).chunks)
                + FallbackEvents(r);
      return;
    }
    memory.Append(row);
    turn' := turn'.(messages := turn'.messages + [row]);
    BooksIgnoreEvents(world, turn.ledger, turn'.ledger, s.hits, log, cfg.maxToolCallsPerStep);
    FreshRound(cfg, s, rounds, r);
  }

  lemma {:induction false} FreshRound(cfg: Config, s: Start, rounds: seq<Round>, r: Round)
    requires r.handed == cfg.setting.Handed(|rounds|, s.base, Rows(rounds), r.nudged)
    requires r.handled == [] && r.row.role.Assistant? && (r.nudged ==> r.row.toolCalls == [])
    requires r.row.sources == Cited(s.hits, s.auto + LogOf(rounds)) && r.row.toolCallId == None
             && r.row.toolName == None
    requires r.row.content == (if BlankAnswer(r) then cfg.setting.Fallback(r.row.sources) else r.streamed)
    ensures RoundOk(cfg.setting, s.base, s.hits, s.auto, rounds, r) && RowsOf(r) == [r.row]
  {
    hide Fitted, Cited;
  }

  // --- The loop --------------------------------------------------------------------------------

  /** A stored round joins the record once its calls have been answered as far as they were. */
  lemma RoundJoins(cfg: Config, s: Start, rounds: seq<Round>, r: Round, handled: seq<Handled>)
    requires RoundsOk(cfg.setting, s.base, s.hits, s.auto, rounds) && AllAsked(rounds)
    requires RoundOk(cfg.setting, s.base, s.hits, s.auto, rounds, r) && r.handled == []
    requires |handled| <= |r.row.toolCalls|
    requires forall k | 0 <= k < |handled| :: handled[k].index == k && handled[k].call == r.row.toolCalls[k]
    ensures var r' := r.(handled := handled);
            && RoundsOk(cfg.setting, s.base, s.hits, s.auto, rounds + [r'])
            && Rows(rounds + [r']) == Rows(rounds) + (RowsOf(r) + ToolRows(handled))
            && LogOf(rounds + [r']) == LogOf(rounds) + handled
            && (|handled| == |r.row.toolCalls| && handled != [] ==> AllAsked(rounds + [r']))
            && (Complete(r') <==> |handled| == |r.row.toolCalls|)
  {
    hide RoundsOk, Fitted, Cited, Blank, Rows, LogOf;
    var r' := r.(handled := handled);
    RoundsSnoc(cfg.setting, s.base, s.hits, s.auto, rounds, r');
    assert RowsOf(r') == RowsOf(r) + ToolRows(handled);
    assert (rounds + [r'])[..|rounds|] == rounds;
  }

  /** Answers the calls of a round that has just been stored. */
  method AnswerRound(cfg: Config, world: World, memory: ChatMemory, turn: Turn, row: Message,
                     ghost s: Start, ghost rounds: seq<Round>, ghost r: Round, ghost start: seq<Row>)
    returns (turn': Turn, stop: Option<Outcome>, ghost rounds': seq<Round>, ghost lost: seq<Handled>)
    requires RoundsOk(cfg.setting, s.base, s.hits, s.auto, rounds) && AllAsked(rounds)
    requires RoundOk(cfg.setting, s.base, s.hits, s.auto, rounds, r) && r.row == row && r.handled == []
    requires row.toolCalls != []
    requires turn.messages == s.base + Rows(rounds) + RowsOf(r)
    requires Books(world, turn.ledger, s.hits, s.auto + LogOf(rounds), cfg.maxToolCallsPerStep)
    requires Clear(world, turn.polls, turn.writes)
    requires memory.rows == start + ToRows(Rows(rounds) + RowsOf(r))
    modifies memory
    ensures |lost| <= 1 && (stop.Some? ==> stop.value.Stopped?)
    ensures memory.rows == start + ToRows(Rows(rounds'))
    ensures turn'.calls == turn.calls && |rounds'| == |rounds| + 1
    ensures rounds' == rounds + [r.(handled := rounds'[|rounds|].handled)]
    ensures turn'.ledger.events == turn.ledger.events + CallsEvents(rounds'[|rounds|].handled + lost)
                                   + (if stop.Some? then [ErrorEvent(stop.value.code)] else [])
    ensures stop.Some? ==>
      && Ended(cfg, world, s, turn'.ledger, stop.value, rounds', lost)
      && |rounds'[|rounds|].handled| < |row.toolCalls|
      && StoppedWaiting(world, turn.polls + |rounds'[|rounds|].handled|, turn.writes + |rounds'[|rounds|].handled|,
                        turn',
                        lost, stop.value.code)
    ensures stop == None ==>
      && lost == [] && Tracks(cfg, world, s, turn', rounds') && Clear(world, turn'.polls, turn'.writes)
      && |rounds'[|rounds|].handled| == |row.toolCalls|
      && turn'.polls == turn.polls + |row.toolCalls| && turn'.writes == turn.writes + |row.toolCalls|
      && turn'.usage == turn.usage
  {
    hide Books, Tally, RoundsOk, RoundOk, Rows, LogOf, ToRow, RowsOf, AllAsked, Complete, AnswersInOrder, ToRows,
         ToolRows, Clear, CallsEvents;
    ghost var log := s.auto + LogOf(rounds);
    ghost var handled;
    turn', stop, handled, lost := AnswerCalls(cfg, world, memory, turn, row.toolCalls, s.hits, log);
    RoundJoins(cfg, s, rounds, r, handled);
    assert memory.rows == start + ToRows(Rows(rounds) + (RowsOf(r) + ToolRows(handled))) by {
      ToRowsAppend(Rows(rounds) + RowsOf(r), ToolRows(handled));
      assert Rows(rounds) + RowsOf(r) + ToolRows(handled) == Rows(rounds) + (RowsOf(r) + ToolRows(handled));
    }
    assert log + handled == s.auto + (LogOf(rounds) + handled);
    rounds' := rounds + [r.(handled := handled)];
    if stop == None {
      assert turn'.messages == s.base + Rows(rounds');
    }
  }

  lemma LastIsComplete(rounds: seq<Round>)
    requires AllAsked(rounds)
    ensures rounds != [] ==> Complete(rounds[|rounds| - 1])
    ensures Unfinished(rounds)
  {
  }

  lemma LeftIncomplete(rounds: seq<Round>, r: Round)
    requires |r.handled| < |r.row.toolCalls| && Unfinished(rounds)
    ensures !Complete(r) && Unfinished(rounds + [r])
  {
  }

  /** Showing a stored round and then its calls is showing the answered round. */
  lemma AnsweredRoundShown(world: World, offerTools: bool, n: nat, r: Round, handled: seq<Handled>, lost: seq<Handled>,
                           before: seq<Event>)
    requires |lost| <= 1 && r.handled == []
    ensures var reply := ReplyEvents(world.fold, ReplyTo(world, offerTools, n, r.handed, r.nudged).chunks);
            before + NudgeEvents(r.nudged) + reply + FallbackEvents(r) + CallsEvents(handled + lost)
            == before + RoundEvents(world, offerTools, n, r.(handled := handled)) + CallsEvents(lost)
  {
    hide ReplyEvents, CallsEvents, Blank;
    var reply := ReplyEvents(world.fold, ReplyTo(world, offerTools, n, r.handed, r.nudged).chunks);
    CallsEventsAppend(handled, lost);
    assert FallbackEvents(r) == FallbackEvents(r.(handled := handled));
    var a, b, c, d, e := NudgeEvents(r.nudged), reply, FallbackEvents(r), CallsEvents(handled), CallsEvents(lost);
    assert before + a + b + c + (d + e) == before + (a + b + c + d) + e;
  }

  /** The abort is seen before the next round. */
  lemma StoppedBefore(cfg: Config, world: World, offerTools: bool, turn: Turn, now: Turn, s: Start, rounds: seq<Round>)
    requires Vigilant(world, offerTools, turn, s, rounds) && world.aborted(turn.polls)
    requires now == turn.(polls := turn.polls + 1).Emit(ErrorEvent(ABORTED))
    ensures StoppedAt(cfg, world, offerTools, now, s, rounds, [], [], ABORTED)
  {
    hide Polls, Rows, UsageOf, Clear, Script;
    assert CallsEvents([]) == [];
    assert turn.ledger.events + [] == turn.ledger.events;
  }

  /** The model call after these rounds stores nothing. */
  lemma {:induction false} StoppedInCall(cfg: Config, world: World, offerTools: bool, turn: Turn, now: Turn, s: Start,
                                         rounds: seq<Round>, handed: seq<Message>, nudged: bool, code: string)
    requires Vigilant(world, offerTools, turn, s, rounds)
    requires var reply, p := ReplyTo(world, offerTools, |rounds|, handed, nudged),
             turn.polls + (if nudged then 0 else 1);
             && StoppedAsking(world, reply, p, turn.writes, now, code)
             && now.ledger.events == turn.ledger.events + NudgeEvents(nudged)
                  + Heard(world, cfg.setting, reply, nudged, Cited(s.hits, s.auto + LogOf(rounds)), p, turn.writes, now)
                  + [ErrorEvent(code)]
    ensures StoppedAt(cfg, world, offerTools, now, s, rounds, [Unstored(handed, nudged)], [], code)
  {
    hide Polls, Rows, UsageOf, Clear, Script, Heard, StoppedAsking, Cited, LogOf, ReplyTo;
    var heard := Heard(world, cfg.setting, ReplyTo(world, offerTools, |rounds|, handed, nudged), nudged,
                       Cited(s.hits, s.auto + LogOf(rounds)), turn.polls + (if nudged then 0 else 1), turn.writes, now);
    Regroup(turn.ledger.events, NudgeEvents(nudged), heard);
  }

  lemma Regroup(a: seq<Event>, b: seq<Event>, c: seq<Event>)
    ensures a + b + c == a + (b + c)
  {
  }

  /** A turn that stops while its newest row is being answered. */
  lemma StoppedInRound(cfg: Config, world: World, offerTools: bool, turn: Turn, now: Turn, s: Start, rounds: seq<Round>,
                       r: Round, lost: seq<Handled>, code: string)
    requires Vigilant(world, offerTools, turn, s, rounds)
    requires StoppedWaiting(world, turn.polls + PollsIn(world, offerTools, |rounds|, r), turn.writes + 1 + |r.handled|,
                            now, lost, code)
    requires now.ledger.events == turn.ledger.events + RoundEvents(world, offerTools, |rounds|, r) + CallsEvents(lost)
                                  + [ErrorEvent(code)]
    ensures StoppedAt(cfg, world, offerTools, now, s, rounds + [r], [], lost, code)
  {
    hide Polls, PollsIn, Rows, UsageOf, Clear, Script, RoundEvents, CallsEvents;
    SnocCounts(world, offerTools, rounds, r);
    assert s.shown + Script(world, offerTools, rounds) + RoundEvents(world, offerTools, |rounds|, r)
           == s.shown + (Script(world, offerTools, rounds) + RoundEvents(world, offerTools, |rounds|, r));
  }

  /** A stored round whose calls, if any, cannot be run ends the turn: as its answer or by a crash. */
  lemma RoundUnanswered(cfg: Config, world: World, turn: Turn, now: Turn, offerTools: bool, s: Start,
                        rounds: seq<Round>, r: Round)
    requires RoundsOk(cfg.setting, s.base, s.hits, s.auto, rounds) && AllAsked(rounds)
             && Honest(world, offerTools, rounds)
    requires RoundOk(cfg.setting, s.base, s.hits, s.auto, rounds, r) && r.handled == []
    requires FromModel(world, offerTools, |rounds|, r)
    requires Books(world, now.ledger, s.hits, s.auto + LogOf(rounds), cfg.maxToolCallsPerStep)
    requires Vigilant(world, offerTools, turn, s, rounds) && Clear(world, now.polls, now.writes)
    requires now.polls == turn.polls + PollsIn(world, offerTools, |rounds|, r) && now.writes == turn.writes + 1
    requires now.usage == UsageAfter(world, offerTools, |rounds|, r, turn.usage)
    requires now.ledger.events == turn.ledger.events + NudgeEvents(r.nudged)
               + ReplyEvents(world.fold, ReplyTo(world, offerTools, |rounds|, r.handed, r.nudged).chunks)
               + FallbackEvents(r)
    ensures Rows(rounds + [r]) == Rows(rounds) + RowsOf(r) && Honest(world, offerTools, rounds + [r])
    ensures Vigilant(world, offerTools, now, s, rounds + [r])
    ensures if r.row.toolCalls == [] then Concluded(cfg, world, s, now, rounds + [r])
            else
              && !Complete(r) && Unfinished(rounds + [r])
              && Ended(cfg, world, s, now.ledger, Crashed, rounds + [r], [])
  {
    hide Books, Tally, RoundsOk, RoundOk, Rows, LogOf, RowsOf, AllAsked, Honest, FromModel, Clear,
         UsageOf, Polls, LastUsage, Unfinished, Vigilant, ReplyEvents, RoundEvents, FallbackEvents;
    var log := s.auto + LogOf(rounds);
    RoundJoins(cfg, s, rounds, r, []);
    assert r.(handled := []) == r;
    assert RowsOf(r) + ToolRows([]) == RowsOf(r) && LogOf(rounds) + [] == LogOf(rounds) && log + [] == log;
    HonestSnoc(world, offerTools, rounds, r, []);
    NoCallsShown(now.ledger.events);
    AnsweredRoundShown(world, offerTools, |rounds|, r, [], [], turn.ledger.events);
    assert turn.ledger.events + RoundEvents(world, offerTools, |rounds|, r) + []
           == turn.ledger.events + RoundEvents(world, offerTools, |rounds|, r);
    VigilantSnoc(world, offerTools, turn, now, s, rounds, r);
    if r.row.toolCalls != [] {
      LastIsComplete(rounds);
      BooksTally(world, now.ledger, s.hits, log, cfg.maxToolCallsPerStep);
      LeftIncomplete(rounds, r);
    }
  }

  /** One iteration: poll the abort flag, ask the model, answer its calls. */
  method ReactStep(cfg: Config, world: World, memory: ChatMemory, turn: Turn, offerTools: bool,
                   ghost s: Start, ghost rounds: seq<Round>, ghost start: seq<Row>)
    returns (turn': Turn, stop: Option<Outcome>, answered: bool, ghost rounds': seq<Round>, ghost lost: seq<Handled>,
             ghost open: seq<Unstored>)
    requires Tracks(cfg, world, s, turn, rounds)
    requires turn.calls == |rounds| && Honest(world, offerTools, rounds)
    requires Vigilant(world, offerTools, turn, s, rounds)
    requires memory.rows == start + ToRows(Rows(rounds))
    modifies memory
    ensures memory.rows == start + ToRows(Rows(rounds'))
    ensures rounds' == rounds
            || (|rounds'| == |rounds| + 1 && rounds'[..|rounds|] == rounds && !rounds'[|rounds|].nudged)
    ensures turn'.calls == |rounds'| + |open| && (open != [] ==> rounds' == rounds && !open[0].nudged)
    ensures Honest(world, offerTools, rounds')
    ensures OpenOk(cfg.setting, s.base, rounds', open)
    ensures stop.Some? ==>
      && stop.value != Completed && Ended(cfg, world, s, turn'.ledger, stop.value, rounds', lost)
      && (rounds' != rounds ==> !Complete(rounds'[|rounds|])) && Unfinished(rounds')
    ensures cfg.registry.None? && rounds' != rounds ==> rounds'[|rounds|].handled == []
    ensures cfg.registry.None? && rounds' != rounds ==> answered || stop == Some(Crashed)
    ensures stop.Some? ==> !answered
    ensures stop.Some? && stop.value.Stopped? ==>
      StoppedAt(cfg, world, offerTools, turn', s, rounds', open, lost, stop.value.code)
    ensures stop == Some(Crashed) ==>
      && cfg.registry.None? && lost == [] && open == [] && rounds' != rounds && rounds'[|rounds|].handled == []
      && Vigilant(world, offerTools, turn', s, rounds')
    ensures stop == None ==>
      && rounds' != rounds && lost == [] && open == []
      && Vigilant(world, offerTools, turn', s, rounds')
      && (if answered then Concluded(cfg, world, s, turn', rounds') else Tracks(cfg, world, s, turn', rounds'))
  {
    hide Books, Tally, RoundsOk, RoundOk, AllCalls, AllThinking, AnswerIn, Rows, LogOf, ToRow, RowsOf, AllAsked,
         Complete, AnswersInOrder, Fitted, Cited, ToRows, ToolRows, Honest, FromModel, Clear, UsageOf, Polls, LastUsage,
         Unfinished, StoppedAt, Script, RoundEvents, ReplyEvents, FallbackEvents, CallsEvents, Heard, StoppedAsking;
    ghost var log := s.auto + LogOf(rounds);
    assert log + [] == log;
    LastIsComplete(rounds);
    BooksTally(world, turn.ledger, s.hits, log, cfg.maxToolCallsPerStep);
    turn', stop, answered, rounds', lost, open := turn, None, false, rounds, [], [];
    assert Clear(world, turn.polls, turn.writes);
    ClearNext(world, turn.polls, turn.writes);
    turn' := turn.(polls := turn.polls + 1);
    if world.aborted(turn'.polls - 1) {
      turn', stop := turn'.Emit(ErrorEvent(ABORTED)), Some(Stopped(ABORTED));
      BooksIgnoreEvents(world, turn.ledger, turn'.ledger, s.hits, log, cfg.maxToolCallsPerStep);
      StoppedBefore(cfg, world, offerTools, turn, turn', s, rounds);
      return;
    }
    var row; ghost var r;
    assert turn'.messages == s.base + Rows(rounds) + [];
    turn', row, stop, r := StoreRound(cfg, world, memory, turn', false, offerTools, s, rounds);
    assert turn.ledger.events + NudgeEvents(false) == turn.ledger.events;
    if stop.Some? {
      open := [Unstored(r.handed, r.nudged)];
      StoppedInCall(cfg, world, offerTools, turn, turn', s, rounds, r.handed, false, stop.value.code);
      return;
    }
    assert memory.rows == start + ToRows(Rows(rounds) + RowsOf(r)) by { ToRowsAppend(Rows(rounds), RowsOf(r)); }
    if row.toolCalls == [] || cfg.registry.None? {
      RoundUnanswered(cfg, world, turn, turn', offerTools, s, rounds, r);
      rounds' := rounds + [r];
      if row.toolCalls == [] {
        answered := true;
      } else {
        stop := Some(Crashed);
      }
      return;
    }
    turn', stop, rounds', lost := AnswerRound(cfg, world, memory, turn', row, s, rounds, r, start);
    ghost var r' := rounds'[|rounds|];
    HonestSnoc(world, offerTools, rounds, r, r'.handled);
    AnsweredRoundShown(world, offerTools, |rounds|, r, r'.handled, lost, turn.ledger.events);
    if stop == None {
      NoCallsShown(turn.ledger.events + RoundEvents(world, offerTools, |rounds|, r'));
      assert CallsEvents(lost) == [] by { NoCallsShown([]); assert lost == [] + []; }
      VigilantSnoc(world, offerTools, turn, turn', s, rounds, r');
    } else {
      LeftIncomplete(rounds, r');
      StoppedInRound(cfg, world, offerTools, turn, turn', s, rounds, r', lost, stop.value.code);
    }
  }

  method ReactLoop(cfg: Config, world: World, memory: ChatMemory, turn: Turn, steps: nat, offerTools: bool,
                   ghost s: Start)
    returns (turn': Turn, stop: Option<Outcome>, answered: bool, ghost rounds: seq<Round>, ghost lost: seq<Handled>,
             ghost open: seq<Unstored>)
    requires Tracks(cfg, world, s, turn, []) && turn.calls == 0 && Vigilant(world, offerTools, turn, s, [])
    modifies memory
    ensures memory.rows == old(memory.rows) + ToRows(Rows(rounds))
    ensures turn'.calls == |rounds| + |open| <= steps && Paced(rounds, open, steps) && Unarmed(cfg, rounds)
    ensures Honest(world, offerTools, rounds)
    ensures OpenOk(cfg.setting, s.base, rounds, open)
    ensures stop.Some? ==>
      && stop.value != Completed && Ended(cfg, world, s, turn'.ledger, stop.value, rounds, lost)
      && (open == [] && |rounds| == steps ==> rounds != [] && !Complete(rounds[|rounds| - 1])) && Unfinished(rounds)
    ensures stop.Some? && stop.value.Stopped? ==>
      StoppedAt(cfg, world, offerTools, turn', s, rounds, open, lost, stop.value.code)
    ensures stop == Some(Crashed) ==>
      && cfg.registry.None? && lost == [] && open == [] && rounds != [] && !Complete(rounds[|rounds| - 1])
      && rounds[|rounds| - 1].handled == [] && Vigilant(world, offerTools, turn', s, rounds)
    ensures stop == None ==> lost == [] && open == [] && Vigilant(world, offerTools, turn', s, rounds)
    ensures cfg.registry.None? && !answered && stop != Some(Crashed) ==> rounds == []
    ensures stop.Some? ==> !answered
    ensures stop == None && answered ==> Concluded(cfg, world, s, turn', rounds)
    ensures stop == None && !answered ==> Tracks(cfg, world, s, turn', rounds) && |rounds| == steps
  {
    hide Tracks, Concluded, Ended, ToRow, Complete, Fitted, FromModel, StoppedAt, Vigilant;
    turn', stop, answered, rounds, lost, open := turn, None, false, [], [], [];
    assert ToRows(Rows([])) == [];
    for step := 0 to steps
      invariant Tracks(cfg, world, s, turn', rounds)
      invariant Vigilant(world, offerTools, turn', s, rounds)
      invariant Honest(world, offerTools, rounds)
      invariant stop == None && !answered && lost == [] && open == []
      invariant |rounds| == step == turn'.calls
      invariant forall n | 0 <= n < step :: !rounds[n].nudged && (cfg.registry.None? ==> rounds[n].handled == [])
      invariant cfg.registry.None? ==> rounds == []
      invariant memory.rows == old(memory.rows) + ToRows(Rows(rounds))
    {
      ghost var before := rounds;
      turn', stop, answered, rounds, lost, open :=
        ReactStep(cfg, world, memory, turn', offerTools, s, rounds, old(memory.rows));
      assert forall n | 0 <= n < step :: rounds[n] == before[n];
      if stop.Some? || answered {
        return;
      }
    }
  }

  lemma NoRounds()
    ensures Rows([]) == [] && LogOf([]) == [] && Spoken([]) == ""
  {
  }

  /** The for-else branch: steps are used up, so one last call with tools disabled. */
  method Synthesize(cfg: Config, world: World, memory: ChatMemory, turn: Turn, ghost offerTools: bool,
                    ghost s: Start, ghost rounds: seq<Round>, ghost start: seq<Row>)
    returns (turn': Turn, stop: Option<Outcome>, ghost rounds': seq<Round>, ghost open: seq<Unstored>)
    requires Tracks(cfg, world, s, turn, rounds)
    requires turn.calls == |rounds| && Honest(world, offerTools, rounds)
    requires Vigilant(world, offerTools, turn, s, rounds)
    requires memory.rows == start + ToRows(Rows(rounds))
    modifies memory
    ensures turn'.calls == |rounds'| + |open| == |rounds| + 1
    ensures if open == [] then
              && |rounds'| == |rounds| + 1 && rounds'[..|rounds|] == rounds
              && rounds'[|rounds|].nudged && rounds'[|rounds|].handled == []
            else rounds' == rounds && open[0].nudged
    ensures Honest(world, offerTools, rounds')
    ensures OpenOk(cfg.setting, s.base, rounds', open)
    ensures memory.rows == start + ToRows(Rows(rounds'))
    ensures stop.Some? ==>
      && open != [] && Unfinished(rounds) && stop.value.Stopped?
      && Ended(cfg, world, s, turn'.ledger, stop.value, rounds, [])
      && StoppedAt(cfg, world, offerTools, turn', s, rounds, open, [], stop.value.code)
    ensures stop == None ==>
      && open == [] && Concluded(cfg, world, s, turn', rounds') && Vigilant(world, offerTools, turn', s, rounds')
  {
    hide Books, Tally, RoundsOk, RoundOk, AllCalls, AllThinking, AnswerIn, Rows, LogOf, ToRow, RowsOf, Fitted, Honest,
         Polls, UsageOf, LastUsage, StoppedAt, Script, RoundEvents, ReplyEvents, FallbackEvents, Heard, StoppedAsking,
             Cited;
    ghost var log := s.auto + LogOf(rounds);
    turn' := turn.Emit(ThoughtEvent(LIMIT_REACHED)).(messages := turn.messages + [cfg.setting.Nudge()]);
    BooksIgnoreEvents(world, turn.ledger, turn'.ledger, s.hits, log, cfg.maxToolCallsPerStep);
    var row; ghost var r;
    turn', row, stop, r := StoreRound(cfg, world, memory, turn', true, false, s, rounds);
    rounds', open := rounds, [];
    LastIsComplete(rounds);
    assert ReplyTo(world, offerTools, |rounds|, r.handed, true) == ReplyTo(world, false, |rounds|, r.handed, true);
    if stop.Some? {
      open := [Unstored(r.handed, r.nudged)];
      StoppedInCall(cfg, world, offerTools, turn, turn', s, rounds, r.handed, true, stop.value.code);
      return;
    }
    assert FromModel(world, offerTools, |rounds|, r);
    RoundUnanswered(cfg, world, turn, turn', offerTools, s, rounds, r);
    rounds' := rounds + [r];
    ToRowsAppend(Rows(rounds), RowsOf(r));
  }

  // --- A whole turn ------------------------------------------------------------------------------

  /** What a turn did, for stating its laws. */
  datatype Run = Run(
    base: seq<Message>,
    hits: seq<Hit>,
    auto: seq<Handled>,
    asked: seq<Message>,
    rounds: seq<Round>,
    lost: seq<Handled>,
    open: seq<Unstored>,
    end: Turn)
  {
    function Log(): seq<Handled> { auto + LogOf(rounds) + lost }
  }

  function EffectiveSteps(cfg: Config, req: Request): nat {
    var steps := if req.maxSteps.Some? && req.maxSteps.value < cfg.maxSteps then req.maxSteps.value else cfg.maxSteps;
    if steps < 0 then 0 else steps
  }

  predicate ToolsArmed(cfg: Config, req: Request) {
    req.useTools && cfg.registry.Some? && cfg.registry.value != {}
  }

  function AutoCall(world: World, userText: string): ToolCall {
    ToolCall("call_auto_web_" + world.callSuffix, "web_search", world.webSearchArguments(userText))
  }

  predicate AutoSearches(cfg: Config, world: World, req: Request, hits: seq<Hit>) {
    && ToolsArmed(cfg, req) && "web_search" in cfg.registry.value
    && world.wantsWebSearch(req.userText, hits != [])
  }

  function AutoRows(setting: Setting, h: Handled): seq<Message> {
    [setting.Evidence(), Message(Assistant, "", toolCalls := [h.call]), ToolRow(h)]
  }

  function SystemRows(texts: seq<string>): (r: seq<Message>)
    ensures |r| == |texts| && forall i | 0 <= i < |r| :: r[i] == SystemMessage(texts[i])
  {
    seq(|texts|, i requires 0 <= i < |texts| => SystemMessage(texts[i]))
  }

  function Asked(req: Request): seq<Message> {
    if req.persistUser then [UserMessage(req.userText)] else []
  }

  /** The prompt a turn starts from: system prelude, compacted history, the new question, and
      the automatic search with its result. */
  function Prompt(cfg: Config, world: World, req: Request, stored: seq<Row>, hits: seq<Hit>,
                  auto: seq<Handled>): seq<Message> {
    SystemRows(world.prelude(hits, ToolsArmed(cfg, req)))
    + CompactRows(cfg.shrink, FromRows(stored))
    + Asked(req)
    + (if auto == [] then [] else AutoRows(cfg.setting, auto[0]))
  }

  lemma FirstIsDispatched(index: nat, cap: int, call: ToolCall)
    requires index < cap
    ensures Decide([], index, cap, call) == Dispatched
  {
  }

  lemma OpenBooks(world: World, ledger: Ledger, hits: seq<Hit>, cap: int)
    requires ledger == Ledger(ledger.events, Ranked(HitPayloads(hits), 1), {}, map[], 0)
    ensures Books(world, ledger, hits, [], cap)
  {
  }

  method AutoWebSearch(cfg: Config, world: World, turn: Turn, userText: string, ghost hits: seq<Hit>)
    returns (turn': Turn, h: Handled)
    requires cfg.Valid() && Books(world, turn.ledger, hits, [], cfg.maxToolCallsPerStep)
    requires turn.ledger == Ledger(turn.ledger.events, turn.ledger.sources, {}, map[], 0)
    ensures h == Handled(0, AutoCall(world, userText), Dispatched,
                         world.tool(0, AutoCall(world, userText)))
    ensures Books(world, turn'.ledger, hits, [h], cfg.maxToolCallsPerStep)
    ensures turn'.ledger.events == turn.ledger.events + CallEvents(SEARCHING_WEB, h)
    ensures turn'.messages == turn.messages + AutoRows(cfg.setting, h) && turn'.calls == turn.calls
    ensures turn'.polls == turn.polls && turn'.writes == turn.writes && turn'.usage == turn.usage
  {
    hide Books, Decide, ToolCallKey;
    var tc := AutoCall(world, userText);
    turn' := turn.Emit(ThoughtEvent(SEARCHING_WEB)).Emit(ToolCallEvent(tc));
    var result := world.tool(turn'.ledger.dispatches, tc);
    h := Handled(0, tc, Dispatched, result);
    var newSources := SourcesFromToolResult(result, |turn'.ledger.sources| + 1);
    turn' := turn'.(ledger := turn'.ledger.(
        executedKeys := {ToolCallKey(tc)},
        executedCounts := map[tc.name := 1],
        dispatches := turn'.ledger.dispatches + 1,
        sources := turn'.ledger.sources + newSources))
      .Emit(ToolResultEvent(tc, result.content, result.isError));
    turn' := turn'.(messages := turn'.messages + AutoRows(cfg.setting, h));
    FirstIsDispatched(0, cfg.maxToolCallsPerStep, tc);
    assert turn.ledger.executedCounts[tc.name := CountOf(turn.ledger.executedCounts, tc.name) + 1] == map[tc.name := 1];
    BooksAfterCall(world, turn.ledger, turn'.ledger, hits, [], cfg.maxToolCallsPerStep, h);
    assert [] + [h] == [h];
  }

  predicate Retrieves(cfg: Config, req: Request) { req.useRag && cfg.hasKnowledge }

  function PreparePolls(cfg: Config, req: Request): nat { if Retrieves(cfg, req) then 2 else 1 }

  function Found(cfg: Config, world: World, req: Request): seq<Hit> {
    if Retrieves(cfg, req) && world.search(req.userText).Some? then world.search(req.userText).value else []
  }

  /** What is shown until the knowledge base answers. */
  function Greeting(cfg: Config, req: Request): seq<Event> {
    (if req.quiet then [] else [ThoughtEvent(THINKING)])
    + (if Retrieves(cfg, req) then [ThoughtEvent(SEARCHING_KNOWLEDGE)] else [])
  }

  /** What is shown until the prompt is built. */
  function Preamble(cfg: Config, world: World, req: Request): seq<Event> {
    Greeting(cfg, req) + (if Retrieves(cfg, req) then [RetrievalEvent(Found(cfg, world, req))] else [])
  }

  /** What is shown before the loop: the automatic search comes last. */
  function Opening(cfg: Config, world: World, req: Request, auto: seq<Handled>): seq<Event> {
    Preamble(cfg, world, req) + (if auto == [] then [] else CallEvents(SEARCHING_WEB, auto[0]))
  }

  /** How a turn fails before its loop: after how many polls and writes, and having shown what. */
  datatype Failure = Failure(code: string, polls: nat, writes: nat, shown: seq<Event>)

  /** The first thing that goes wrong before the loop, in the order things are tried. */
  function FirstFailure(cfg: Config, world: World, req: Request): Option<Failure> {
    if world.aborted(0) then Some(Failure(ABORTED, 1, 0, []))
    else if world.readFails then Some(Failure(MEMORY_READ_FAILED, 1, 0, []))
    else if Retrieves(cfg, req) && world.aborted(1) then Some(Failure(ABORTED, 2, 0, Greeting(cfg, req)))
    else if Retrieves(cfg, req) && world.search(req.userText).None? then
      Some(Failure(RETRIEVAL_FAILED, 2, 0, Greeting(cfg, req)))
    else if req.persistUser && world.writeFails(0) then
      Some(Failure(MEMORY_WRITE_FAILED, PreparePolls(cfg, req), 1, Preamble(cfg, world, req)))
    else None
  }

  /** Nothing goes wrong before the question is stored. */
  predicate Ready(cfg: Config, world: World, req: Request) {
    !world.aborted(0) && !world.readFails
        && (Retrieves(cfg, req) ==> !world.aborted(1) && world.search(req.userText).Some?)
  }

  /** The turn failed before its loop, in the first way it could, and ran no tool. */
  predicate Unstarted(cfg: Config, world: World, req: Request, turn: Turn, code: string) {
    && turn.ledger.events != []
    && FirstFailure(cfg, world, req) == Some(Failure(code, turn.polls, turn.writes, turn.Before().ledger.events))
    && LastIs(turn.ledger.events, ErrorEvent(code)) && turn.ledger.dispatches == 0
  }

  /** Reads the history and runs the optional retrieval. */
  method Gather(cfg: Config, world: World, memory: ChatMemory, req: Request)
    returns (turn: Turn, failed: Option<string>, history: seq<Message>, found: seq<Hit>)
    ensures turn.calls == 0 && turn.usage == None && turn.writes == 0
    ensures failed.Some? ==> Unstarted(cfg, world, req, turn, failed.value)
    ensures failed == None ==>
      && Ready(cfg, world, req)
      && Clear(world, turn.polls, 0) && turn.polls == PreparePolls(cfg, req)
      && history == CompactRows(cfg.shrink, FromRows(memory.rows)) && found == Found(cfg, world, req)
      && turn.ledger == Ledger(Preamble(cfg, world, req), [], {}, map[], 0)
  {
    hide FromRow, CompactRow, Clear, FromRows, CompactRows, FirstFailure, Greeting, Unstarted;
    failed, history, found := None, [], [];
    Failures(cfg, world, req);
    turn := Turn([], None, Ledger([], [], {}, map[], 0), 1, 0, 0);
    ClearStart(world);
    if world.aborted(0) {
      FailsSo(cfg, world, req, turn, ABORTED);
      turn, failed := turn.Emit(ErrorEvent(ABORTED)), Some(ABORTED);
      return;
    }
    if world.readFails {
      FailsSo(cfg, world, req, turn, MEMORY_READ_FAILED);
      turn, failed := turn.Emit(ErrorEvent(MEMORY_READ_FAILED)), Some(MEMORY_READ_FAILED);
      return;
    }
    history := memory.Get();
    history := CompactHistoryToolMessages(cfg.shrink, history);
    if !req.quiet {
      turn := turn.Emit(ThoughtEvent(THINKING));
    }
    if Retrieves(cfg, req) {
      turn := turn.Emit(ThoughtEvent(SEARCHING_KNOWLEDGE));
      assert turn.ledger.events == Greeting(cfg, req) by { Greets(cfg, req); }
      ClearNext(world, turn.polls, turn.writes);
      turn := turn.(polls := turn.polls + 1);
      if world.aborted(turn.polls - 1) {
        FailsSo(cfg, world, req, turn, ABORTED);
        turn, failed := turn.Emit(ErrorEvent(ABORTED)), Some(ABORTED);
        return;
      }
      var answer := world.search(req.userText);
      if answer.None? {
        FailsSo(cfg, world, req, turn, RETRIEVAL_FAILED);
        turn, failed := turn.Emit(ErrorEvent(RETRIEVAL_FAILED)), Some(RETRIEVAL_FAILED);
        return;
      }
      found := answer.value;
      turn := turn.Emit(RetrievalEvent(found));
    } else {
      assert turn.ledger.events == Preamble(cfg, world, req) by { Greets(cfg, req); }
    }
  }

  lemma FailsSo(cfg: Config, world: World, req: Request, turn: Turn, code: string)
    requires FirstFailure(cfg, world, req) == Some(Failure(code, turn.polls, turn.writes, turn.ledger.events))
    requires turn.ledger.dispatches == 0
    ensures Unstarted(cfg, world, req, turn.Emit(ErrorEvent(code)), code)
  {
    hide FirstFailure;
    assert turn.Emit(ErrorEvent(code)).Before() == turn;
  }

  lemma Greets(cfg: Config, req: Request)
    ensures Greeting(cfg, req) == (if req.quiet then [] else [ThoughtEvent(THINKING)])
                                  + (if Retrieves(cfg, req) then [ThoughtEvent(SEARCHING_KNOWLEDGE)] else [])
  {
  }

  /** The failures of reading and retrieving, in their order. */
  lemma Failures(cfg: Config, world: World, req: Request)
    ensures world.aborted(0) ==> FirstFailure(cfg, world, req) == Some(Failure(ABORTED, 1, 0, []))
    ensures !world.aborted(0) && world.readFails
            ==> FirstFailure(cfg, world, req) == Some(Failure(MEMORY_READ_FAILED, 1, 0, []))
    ensures !world.aborted(0) && !world.readFails && Retrieves(cfg, req) && world.aborted(1) ==>
              FirstFailure(cfg, world, req) == Some(Failure(ABORTED, 2, 0, Greeting(cfg, req)))
    ensures !world.aborted(0) && !world.readFails && Retrieves(cfg, req) && !world.aborted(1)
            && world.search(req.userText).None? ==>
              FirstFailure(cfg, world, req) == Some(Failure(RETRIEVAL_FAILED, 2, 0, Greeting(cfg, req)))
  {
    hide Greeting, Preamble;
  }

  /** Everything that happens before the loop. `failed` names the error that ended the turn. */
  method Prepare(cfg: Config, world: World, memory: ChatMemory, req: Request)
    returns (turn: Turn, failed: Option<string>, ghost hits: seq<Hit>, ghost auto: seq<Handled>)
    requires cfg.Valid()
    modifies memory
    ensures turn.calls == 0 && turn.usage == None && |auto| <= 1
    ensures failed.Some? ==>
      Unstarted(cfg, world, req, turn, failed.value) && memory.rows == old(memory.rows) && auto == []
    ensures failed == None ==>
      && FirstFailure(cfg, world, req) == None
      && Clear(world, turn.polls, turn.writes)
      && turn.polls == PreparePolls(cfg, req) && turn.writes == |Asked(req)|
      && memory.rows == old(memory.rows) + ToRows(Asked(req))
      && turn.messages == Prompt(cfg, world, req, old(memory.rows), hits, auto)
      && Books(world, turn.ledger, hits, auto, cfg.maxToolCallsPerStep)
      && turn.ledger.events == Opening(cfg, world, req, auto)
      && (auto != [] <==> AutoSearches(cfg, world, req, hits))
      && (auto != [] ==> auto[0] == Handled(0, AutoCall(world, req.userText), Dispatched,
                                            world.tool(0, AutoCall(world, req.userText))))
      && hits == Found(cfg, world, req)
  {
    hide Books, FromRow, CompactRow, Clear, ToolsArmed, FromRows, CompactRows, Found, PreparePolls, AutoSearches,
         Preamble;
    hits, auto := [], [];
    var history, found;
    turn, failed, history, found := Gather(cfg, world, memory, req);
    if failed.Some? {
      return;
    }
    hits := found;
    var sources := SourcesFromHits(found);
    turn := turn.(ledger := turn.ledger.(sources := sources));
    if req.persistUser {
      ClearNext(world, turn.polls, turn.writes);
      turn := turn.(writes := turn.writes + 1);
      if world.writeFails(turn.writes - 1) {
        turn, failed := turn.Emit(ErrorEvent(MEMORY_WRITE_FAILED)), Some(MEMORY_WRITE_FAILED);
        WriteFailure(cfg, world, req, turn);
        return;
      }
      memory.Append(UserMessage(req.userText));
    }
    assert memory.rows == old(memory.rows) + ToRows(Asked(req));
    var prelude := SystemRows(world.prelude(found, ToolsArmed(cfg, req)));
    turn := turn.(messages := prelude + history + Asked(req));
    OpenBooks(world, turn.ledger, hits, cfg.maxToolCallsPerStep);
    assert turn.messages + [] == turn.messages && turn.ledger.events + [] == turn.ledger.events;
    if AutoSearches(cfg, world, req, found) {
      var h;
      turn, h := AutoWebSearch(cfg, world, turn, req.userText, hits);
      auto := [h];
    }
  }

  /** When nothing else went wrong, the question could not be stored. */
  lemma WriteFailure(cfg: Config, world: World, req: Request, turn: Turn)
    requires Ready(cfg, world, req) && req.persistUser && world.writeFails(0)
    requires turn.polls == PreparePolls(cfg, req) && turn.writes == 1 && turn.ledger.dispatches == 0
    requires turn.ledger.events == Preamble(cfg, world, req) + [ErrorEvent(MEMORY_WRITE_FAILED)]
    ensures Unstarted(cfg, world, req, turn, MEMORY_WRITE_FAILED)
  {
  }

  lemma ClearStart(world: World)
    ensures !world.aborted(0) ==> Clear(world, 1, 0)
  {
  }

  /** Where the loop of a recorded turn started from. */
  function Origin(cfg: Config, world: World, req: Request, run: Run): Start {
    Start(run.base, run.hits, run.auto, PreparePolls(cfg, req), |run.asked|, Opening(cfg, world, req, run.auto))
  }

  /** The turn failed before its loop. */
  predicate FailedAtOnce(failure: Failure, outcome: Outcome, run: Run) {
    && outcome == Stopped(failure.code) && run.end.polls == failure.polls && run.end.writes == failure.writes
    && run.end.ledger.events == failure.shown + [ErrorEvent(failure.code)]
    && run.asked == [] && run.auto == [] && run.rounds == [] && run.lost == [] && run.open == []
  }

  /** The question was stored and the prompt built. */
  predicate Started(cfg: Config, world: World, req: Request, stored: seq<Row>, run: Run) {
    && run.asked == Asked(req) && run.hits == Found(cfg, world, req)
    && run.base == Prompt(cfg, world, req, stored, run.hits, run.auto)
    && (if AutoSearches(cfg, world, req, run.hits)
        then |run.auto| == 1 && run.auto[0] == Handled(0, AutoCall(world, req.userText), Dispatched, run.auto[0].result)
        else run.auto == [])
  }

  /** The last round asked for nothing. */
  predicate Answered(rounds: seq<Round>) {
    rounds != [] && rounds[|rounds| - 1].row.toolCalls == [] && Complete(rounds[|rounds| - 1])
  }

  /** The last round asked for tools and got no answer. */
  predicate Stranded(rounds: seq<Round>) {
    rounds != [] && !Complete(rounds[|rounds| - 1]) && rounds[|rounds| - 1].handled == []
  }

  /** A successful turn: its last round asked for nothing, every poll and write went well, and the
      done event, which cites everything gathered, follows what every round showed. */
  predicate CompletedOk(world: World, offerTools: bool, now: Turn, s: Start, rounds: seq<Round>, open: seq<Unstored>,
                        lost: seq<Handled>) {
    && Answered(rounds) && lost == [] && open == []
    && LastIs(now.ledger.events, DoneEvent(now.usage, Cited(s.hits, s.auto + LogOf(rounds))))
    && Vigilant(world, offerTools, now.Before(), s, rounds)
  }

  /** A turn whose model asked for tools when there is no registry ends by an assertion. */
  predicate CrashedOk(cfg: Config, world: World, offerTools: bool, now: Turn, s: Start, rounds: seq<Round>,
                      open: seq<Unstored>, lost: seq<Handled>) {
    && cfg.registry.None? && Stranded(rounds) && lost == [] && open == []
    && Vigilant(world, offerTools, now, s, rounds)
  }

  /** A turn that stopped in or between its rounds. */
  predicate StoppedOk(cfg: Config, world: World, offerTools: bool, steps: nat, now: Turn, s: Start, rounds: seq<Round>,
                      open: seq<Unstored>, lost: seq<Handled>, code: string) {
    && StoppedAt(cfg, world, offerTools, now, s, rounds, open, lost, code)
    && (open == [] && |rounds| >= steps ==> rounds != [] && !Complete(rounds[|rounds| - 1]))
    && Unfinished(rounds) && (cfg.registry.None? ==> rounds == [])
  }

  /** How the loop, or the call after it, ended. */
  predicate EndedAs(cfg: Config, world: World, req: Request, outcome: Outcome, now: Turn, s: Start, rounds: seq<Round>,
                    open: seq<Unstored>, lost: seq<Handled>) {
    match outcome
    case Completed => CompletedOk(world, ToolsArmed(cfg, req), now, s, rounds, open, lost)
    case Crashed => CrashedOk(cfg, world, ToolsArmed(cfg, req), now, s, rounds, open, lost)
    case Stopped(code) =>
      StoppedOk(cfg, world, ToolsArmed(cfg, req), EffectiveSteps(cfg, req), now, s, rounds, open, lost, code)
  }

  /** What holds of the record of any turn, whatever the world did: it accounts for every event,
      every stored row, every model call and dispatch, and for the reason the turn ended. */
  predicate RunOk(cfg: Config, world: World, req: Request, stored: seq<Row>, events: seq<Event>,
                  outcome: Outcome, run: Run) {
    && events == run.end.ledger.events && |run.auto| <= 1
    && Ended(cfg, world, Origin(cfg, world, req, run), run.end.ledger, outcome, run.rounds, run.lost)
    && Honest(world, ToolsArmed(cfg, req), run.rounds)
    && OpenOk(cfg.setting, run.base, run.rounds, run.open)
    && run.end.calls == |run.rounds| + |run.open| && Paced(run.rounds, run.open, EffectiveSteps(cfg, req))
    && Unarmed(cfg, run.rounds)
    && match FirstFailure(cfg, world, req)
       case Some(failure) => FailedAtOnce(failure, outcome, run)
       case None =>
         && Started(cfg, world, req, stored, run)
         && EndedAs(cfg, world, req, outcome, run.end, Origin(cfg, world, req, run), run.rounds, run.open, run.lost)
  }

  /** The loop, the synthesis call when its steps are used up, and the closing event. */
  method RunTurn(cfg: Config, world: World, memory: ChatMemory, req: Request, turn: Turn, ghost s: Start)
    returns (turn': Turn, outcome: Outcome, ghost rounds: seq<Round>, ghost lost: seq<Handled>,
             ghost open: seq<Unstored>)
    requires Tracks(cfg, world, s, turn, []) && turn.calls == 0 && Vigilant(world, ToolsArmed(cfg, req), turn, s, [])
    modifies memory
    ensures memory.rows == old(memory.rows) + ToRows(Rows(rounds))
    ensures turn'.calls == |rounds| + |open| && Paced(rounds, open, EffectiveSteps(cfg, req)) && Unarmed(cfg, rounds)
    ensures Ended(cfg, world, s, turn'.ledger, outcome, rounds, lost)
    ensures Honest(world, ToolsArmed(cfg, req), rounds)
    ensures OpenOk(cfg.setting, s.base, rounds, open)
    ensures EndedAs(cfg, world, req, outcome, turn', s, rounds, open, lost)
  {
    hide Tracks, Concluded, Ended, Rows, LogOf, Cited, Complete, ToRow, ToolsArmed, Fitted, Honest, Vigilant, StoppedAt,
         CompletedOk, Unfinished;
    var stop, answered;
    turn', stop, answered, rounds, lost, open :=
      ReactLoop(cfg, world, memory, turn, EffectiveSteps(cfg, req), ToolsArmed(cfg, req), s);
    if stop == None && !answered {
      turn', stop, rounds, open := Synthesize(cfg, world, memory, turn', ToolsArmed(cfg, req), s, rounds,
                                              old(memory.rows));
    }
    if stop.Some? {
      return turn', stop.value, rounds, lost, open;
    }
    ConcludedIsDone(cfg, world, ToolsArmed(cfg, req), s, turn', rounds);
    return turn'.Emit(DoneEvent(turn'.usage, turn'.ledger.sources)), Completed, rounds, lost, open;
  }

  lemma ConcludedIsDone(cfg: Config, world: World, offerTools: bool, s: Start, turn: Turn, rounds: seq<Round>)
    requires Concluded(cfg, world, s, turn, rounds) && Vigilant(world, offerTools, turn, s, rounds)
    ensures var now := turn.Emit(DoneEvent(turn.usage, turn.ledger.sources));
            && Ended(cfg, world, s, now.ledger, Completed, rounds, [])
            && CompletedOk(world, offerTools, now, s, rounds, [], [])
  {
    hide Books, Tally, RoundsOk, Rows, LogOf, Cited, Vigilant, Complete;
    var now := turn.Emit(DoneEvent(turn.usage, turn.ledger.sources));
    var log := s.auto + LogOf(rounds);
    assert log + [] == log && now.Before() == turn;
    BooksTally(world, turn.ledger, s.hits, log, cfg.maxToolCallsPerStep);
    BooksIgnoreEvents(world, turn.ledger, now.ledger, s.hits, log, cfg.maxToolCallsPerStep);
  }

  /** One user turn, end to end. Whatever the world does, the record `run` accounts for every
      event emitted, every row stored and every list handed to the model. */
  method Generate(cfg: Config, world: World, memory: ChatMemory, req: Request)
    returns (events: seq<Event>, outcome: Outcome, ghost run: Run)
    requires cfg.Valid()
    modifies memory
    ensures memory.rows == old(memory.rows) + ToRows(run.asked) + ToRows(Rows(run.rounds))
    ensures RunOk(cfg, world, req, old(memory.rows), events, outcome, run)
  {
    hide Books, RoundsOk, Rows, LogOf, Prompt, Cited, LogOk, Complete, ToRow, AutoSearches, FromModel,
         FirstFailure, Polls, Clear, UsageOf, LastUsage, EndedAs, Vigilant, LastIs, Opening, Script;
    var turn, failed; ghost var hits, auto;
    turn, failed, hits, auto := Prepare(cfg, world, memory, req);
    NoRounds();
    ghost var s := Start(turn.messages, hits, auto, PreparePolls(cfg, req), |Asked(req)|,
                         Opening(cfg, world, req, auto));
    NoRoundsOk(cfg.setting, turn.messages, hits, auto);
    if failed.Some? {
      EmptyLog(cfg.maxToolCallsPerStep);
      FailedBefore(cfg, world, req, turn, failed.value);
      assert [] + LogOf([]) + [] == [];
      assert ToRows([]) == [] && old(memory.rows) + [] + [] == old(memory.rows);
      return turn.ledger.events, Stopped(failed.value), Run(turn.messages, hits, auto, [], [], [], [], turn);
    }
    assert auto + [] == auto && turn.messages + [] == turn.messages;
    NothingRunYet(world, ToolsArmed(cfg, req), turn, s);
    ghost var rounds, lost, open;
    var now;
    now, outcome, rounds, lost, open := RunTurn(cfg, world, memory, req, turn, s);
    return now.ledger.events, outcome, Run(turn.messages, hits, auto, Asked(req), rounds, lost, open, now);
  }

  lemma FailedBefore(cfg: Config, world: World, req: Request, turn: Turn, code: string)
    requires Unstarted(cfg, world, req, turn, code)
    ensures FirstFailure(cfg, world, req).Some?
    ensures turn.ledger.events == FirstFailure(cfg, world, req).value.shown + [ErrorEvent(code)]
  {
    hide FirstFailure;
  }

  lemma NothingRunYet(world: World, offerTools: bool, turn: Turn, s: Start)
    requires Clear(world, turn.polls, turn.writes) && turn.usage == None
    requires turn.polls == s.polls && turn.writes == s.writes && turn.ledger.events == s.shown
    ensures Vigilant(world, offerTools, turn, s, [])
  {
    assert s.shown + [] == s.shown;
  }

  lemma NoRoundsOk(setting: Setting, base: seq<Message>, hits: seq<Hit>, auto: seq<Handled>)
    ensures RoundsOk(setting, base, hits, auto, [])
  {
  }

  lemma EmptyLog(cap: int)
    ensures LogOk([], cap) && CallsIn([]) == [] && ResultsIn([]) == []
  {
  }
}
