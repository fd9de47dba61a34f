/** What a turn starts from and what its model is given, in plain terms: the failures before the loop, the
    lists handed over row by row, and what becomes of the replies. */
module ChatInput {
  import opened Wrappers
  import opened Messages
  import opened ToolHelpers
  import opened History
  import opened Text
  import opened ChatMemory
  import opened ChatRun
  import opened ChatReply
  import opened ChatService
  import opened ChatTranscript
  import opened ChatSession
  import opened ChatOutcome

  // --- Before the loop -----------------------------------------------------------------------

  /** A turn that cannot begin says why and leaves no trace: the checks come in this order. */
  lemma EarlyEnds(cfg: Config, world: World, req: Request, stored: seq<Row>, events: seq<Event>,
                  outcome: Outcome, run: Run)
    requires RunOk(cfg, world, req, stored, events, outcome, run)
    ensures var searches := req.useRag && cfg.hasKnowledge;
            var early := if world.aborted(0) then Some("ABORTED")
                         else if world.readFails then Some("memory_read_failed")
                         else if searches && world.aborted(1) then Some("ABORTED")
                         else if searches && world.search(req.userText).None? then Some("retrieval_failed")
                         else if req.persistUser && world.writeFails(0) then Some("memory_write_failed")
                         else None;
            && (early.Some? ==>
                  outcome == Stopped(early.value) && After(stored, run) == stored && HandedLists(run) == [])
            && (early == None ==> run.asked == if req.persistUser then [Message(User, req.userText)] else [])
            && (early == None ==> HitsOf(events) == if searches then world.search(req.userText) else None)
            && (early == None ==> run.hits == if searches then world.search(req.userText).value else [])
  {
    hide Ended, Honest, OpenOk, Paced, Unarmed, EndedAs, Prompt, AutoSearches, PhaseOf, CallsOf, ResultsOf, CallsIn,
         ResultsIn, TokenText, HitsOf, Spoken, Middle, LogOf, Greeting, Preamble;
    TurnTells(cfg, world, req, stored, events, outcome, run);
    NoRounds();
    assert stored + [] + [] == stored;
  }

  // --- What the model is handed --------------------------------------------------------------

  /** A stored row as the model reads it: the payload of a tool row may have been compacted. */
  predicate ReadsAs(shrink: Shrinker, m: Message, row: Row) {
    && m.role == row.role && m.toolCallId == row.toolCallId
    && (row.role.Tool? ==> m.content == shrink(row.content, Some("tool")))
    && (!row.role.Tool? ==>
          m.content == row.content && m.toolCalls == if row.toolCalls.None? then []
              else ParsedCalls(row.toolCalls.value))
  }

  /** The steps a turn may take. */
  function Steps(cfg: Config, req: Request): int {
    var wanted := if req.maxSteps.Some? && req.maxSteps.value < cfg.maxSteps then req.maxSteps.value else cfg.maxSteps;
    if wanted < 0 then 0 else wanted
  }

  /** Whether tools are offered at all. */
  predicate Armed(cfg: Config, req: Request) {
    req.useTools && cfg.registry.Some? && cfg.registry.value != {}
  }

  lemma StepsAndArms(cfg: Config, req: Request)
    ensures EffectiveSteps(cfg, req) == Steps(cfg, req) && (ToolsArmed(cfg, req) <==> Armed(cfg, req))
  {
  }

  /** The rows of the automatic search. */
  function SearchRows(setting: Setting, auto: seq<Handled>): seq<Message> {
    if auto == [] then []
    else
      var call := auto[0].call;
      [Message(System, setting.evidence), Message(Assistant, "", toolCalls := [call]),
       Message(Tool, auto[0].result.content, toolCallId := Some(call.id), toolName := Some(call.name))]
  }

  /** Prelude, stored conversation, question, automatic search, rounds so far and nudge make up the list a
      model call starts from. */
  predicate OfferedRows(cfg: Config, world: World, req: Request, stored: seq<Row>, run: Run, n: nat, list: seq<Message>,
                        prelude: seq<Message>, history: seq<Message>)
    requires n <= |run.rounds|
  {
    && list == prelude + history + run.asked + SearchRows(cfg.setting, run.auto) + Rows(run.rounds[..n])
               + (if n == Steps(cfg, req) then [Message(System, cfg.setting.nudge)] else [])
    && |prelude| == |world.prelude(run.hits, Armed(cfg, req))|
    && (forall i | 0 <= i < |prelude| :: prelude[i] == Message(System, world.prelude(run.hits, Armed(cfg, req))[i]))
    && |history| == |stored| && (forall i | 0 <= i < |history| :: ReadsAs(cfg.shrink, history[i], stored[i]))
  }

  lemma HistoryReads(shrink: Shrinker, stored: seq<Row>)
    ensures var history := CompactRows(shrink, FromRows(stored));
            forall i | 0 <= i < |stored| :: ReadsAs(shrink, history[i], stored[i])
  {
  }

  lemma PromptRows(cfg: Config, world: World, req: Request, stored: seq<Row>, run: Run)
    requires Started(cfg, world, req, stored, run)
    ensures var prelude := SystemRows(world.prelude(run.hits, Armed(cfg, req)));
            var history := CompactRows(cfg.shrink, FromRows(stored));
            && run.base == prelude + history + run.asked + SearchRows(cfg.setting, run.auto)
            && |history| == |stored| && (forall i | 0 <= i < |history| :: ReadsAs(cfg.shrink, history[i], stored[i]))
  {
    hide ReadsAs, FromRow, CompactRow, AutoSearches, Found;
    StepsAndArms(cfg, req);
    HistoryReads(cfg.shrink, stored);
  }

  /** Each model call is handed the fitted list, which starts from the prelude, the whole stored conversation
      row by row, the question, the automatic search, the rounds so far and, once the steps are used up,
      the nudge. */
  lemma HandedFrom(cfg: Config, world: World, req: Request, stored: seq<Row>, events: seq<Event>,
                   outcome: Outcome, run: Run, n: nat)
    returns (offered: seq<Message>, prelude: seq<Message>, history: seq<Message>)
    requires RunOk(cfg, world, req, stored, events, outcome, run) && n < |HandedLists(run)|
    ensures n <= |run.rounds| && OfferedRows(cfg, world, req, stored, run, n, offered, prelude, history)
    ensures offered == OfferedTo(cfg, run, n) && HandedLists(run)[n] == Fitted(cfg.setting.WindowAt(n), offered)
    ensures run.asked == if req.persistUser then [Message(User, req.userText)] else []
  {
    hide Ended, Honest, Unarmed, EndedAs, Prompt, AutoSearches, ReadsAs, Fitted, Rows, SearchRows, Found, FirstFailure,
         FromRow, CompactRow, Steps, EffectiveSteps, Armed, ToolsArmed, RoundOk;
    StepsAndArms(cfg, req);
    PromptRows(cfg, world, req, stored, run);
    prelude := SystemRows(world.prelude(run.hits, Armed(cfg, req)));
    history := CompactRows(cfg.shrink, FromRows(stored));
    var nudged := n == Steps(cfg, req);
    offered := cfg.setting.Offer(run.base, Rows(run.rounds[..n]), nudged);
    if n < |run.rounds| {
      RoundHanded(cfg, world, req, outcome, run, n);
      assert HandedLists(run)[n] == run.rounds[n].handed;
    } else {
      assert run.rounds[..n] == run.rounds && HandedLists(run)[n] == run.open[0].handed;
    }
  }

  lemma RoundHanded(cfg: Config, world: World, req: Request, outcome: Outcome, run: Run, n: nat)
    requires Ended(cfg, world, Origin(cfg, world, req, run), run.end.ledger, outcome, run.rounds, run.lost)
    requires n < |run.rounds|
    ensures run.rounds[n].handed == cfg.setting.Handed(n, run.base, Rows(run.rounds[..n]), run.rounds[n].nudged)
  {
    hide RoundsOk, Tally, Fitted, Rows, Cited, AnswersInOrder;
    RoundsPrefix(cfg.setting, run.base, run.hits, run.auto, run.rounds, n);
  }

  /** Without a window, or when it fits, that whole list reaches the model: all of the conversation, in one
      piece and in order, with only system rows before it and the new question right behind it. */
  lemma ConversationReachesModel(cfg: Config, world: World, req: Request, stored: seq<Row>, events: seq<Event>,
                                 outcome: Outcome, run: Run, n: nat)
    returns (k: nat)
    requires RunOk(cfg, world, req, stored, events, outcome, run) && n < |HandedLists(run)|
    requires cfg.setting.window.None? || cfg.setting.WindowAt(n).value.Fits(OfferedTo(cfg, run, n))
    ensures var list := HandedLists(run)[n];
            && k + |stored| + (if req.persistUser then 1 else 0) <= |list|
            && (forall i | 0 <= i < k :: list[i].role.System?)
            && (forall i | 0 <= i < |stored| :: ReadsAs(cfg.shrink, list[k + i], stored[i]))
            && (req.persistUser ==> list[k + |stored|] == Message(User, req.userText))
  {
    hide RunOk, ReadsAs, SearchRows, Rows, Fitted, Steps, Armed;
    var offered, prelude, history := HandedFrom(cfg, world, req, stored, events, outcome, run, n);
    k := |prelude|;
    WholeWhenFits(cfg.setting.WindowAt(n), offered);
    assert forall i | 0 <= i < |stored| :: offered[k + i] == history[i];
  }

  lemma WholeWhenFits(window: Option<Window>, ms: seq<Message>)
    requires window.None? || window.value.Fits(ms)
    ensures Fitted(window, ms) == ms
  {
  }

  /** However little fits, the first call is handed the question as its last row: the new one, or the stored
      one that is answered again. */
  lemma QuestionReachesModel(cfg: Config, world: World, req: Request, stored: seq<Row>, events: seq<Event>,
                             outcome: Outcome, run: Run)
    requires RunOk(cfg, world, req, stored, events, outcome, run) && HandedLists(run) != []
    requires run.auto == [] && Steps(cfg, req) > 0
    ensures var list := HandedLists(run)[0];
            && (req.persistUser ==> list != [] && list[|list| - 1] == Message(User, req.userText))
            && (!req.persistUser && stored != [] && !stored[|stored| - 1].role.Tool? ==>
                  list != [] && ReadsAs(cfg.shrink, list[|list| - 1], stored[|stored| - 1]))
  {
    hide RunOk, ReadsAs, Fitted, Steps, Armed;
    var offered, prelude, history := HandedFrom(cfg, world, req, stored, events, outcome, run, 0);
    assert offered == prelude + history + run.asked;
    if req.persistUser {
      QuestionStays(cfg.setting.WindowAt(0), offered);
    } else if stored != [] && !stored[|stored| - 1].role.Tool? {
      assert offered[|offered| - 1] == history[|stored| - 1];
      SameRole(cfg.shrink, history[|stored| - 1], stored[|stored| - 1]);
      QuestionStays(cfg.setting.WindowAt(0), offered);
    }
  }

  lemma SameRole(shrink: Shrinker, m: Message, row: Row)
    requires ReadsAs(shrink, m, row)
    ensures m.role == row.role
  {
  }

  /** The rows of a round: what the model said, and a tool row for each call that was answered. */
  lemma RowsSpell(rounds: seq<Round>, r: Round)
    ensures Rows([]) == []
    ensures var answers := Rows(rounds + [r])[|Rows(rounds)| + 1..];
            && Rows(rounds + [r]) == Rows(rounds) + [r.row] + answers && |answers| == |r.handled|
            && forall i | 0 <= i < |answers| ::
                 answers[i] == Message(Tool, r.handled[i].result.content, toolCallId := Some(r.handled[i].call.id),
                                       toolName := Some(r.handled[i].call.name))
  {
    hide Rows, ToolRows;
    NoRounds();
    RoundAdds(rounds, r);
    Behind(Rows(rounds), r.row, ToolRows(r.handled));
    assert ToolRows(r.handled) == Rows(rounds + [r])[|Rows(rounds)| + 1..];
  }

  lemma RoundAdds(rounds: seq<Round>, r: Round)
    ensures Rows(rounds + [r]) == Rows(rounds) + ([r.row] + ToolRows(r.handled))
  {
    assert (rounds + [r])[..|rounds|] == rounds;
  }

  lemma Behind(a: seq<Message>, m: Message, b: seq<Message>)
    ensures a + ([m] + b) == a + [m] + b && (a + [m] + b)[|a| + 1..] == b
  {
  }

  // --- What becomes of a reply ---------------------------------------------------------------

  /** Each stored round is the model's reply to its list: tools are offered until the steps are used up, a
      blank answer that asks for nothing becomes the fallback, and the calls are answered in order. */
  lemma RoundIsReply(cfg: Config, world: World, req: Request, stored: seq<Row>, events: seq<Event>,
                     outcome: Outcome, run: Run, n: nat)
    requires RunOk(cfg, world, req, stored, events, outcome, run) && n < |run.rounds|
    ensures n <= Steps(cfg, req)
    ensures var r := run.rounds[n];
            var reply := world.llm(n, r.handed, Armed(cfg, req) && n < Steps(cfg, req));
            var answer := AnswerIn(world.fold, reply.chunks);
            && reply.ending.Finished? && r.row.role.Assistant? && r.row.thinking == AllThinking(reply.chunks)
            && r.row.toolCalls == (if n < Steps(cfg, req) then AllCalls(reply.chunks) else [])
            && r.row.content == (if r.row.toolCalls == [] && (forall c | c in answer :: IsSpace(c))
                                 then cfg.setting.fallback(r.row.sources != []) else answer)
            && |r.handled| <= |r.row.toolCalls|
            && forall k | 0 <= k < |r.handled| :: r.handled[k].call == r.row.toolCalls[k]
  {
    hide EndedAs, Prompt, Fitted, Rows, AllCalls, AllThinking, AnswerIn, IsSpace, Cited, LogOf, Tally, Started,
         FirstFailure, OpenOk, Unarmed, RoundsOk;
    StepsAndArms(cfg, req);
    RoundsPrefix(cfg.setting, run.base, run.hits, run.auto, run.rounds, n);
    assert FromModel(world, ToolsArmed(cfg, req), n, run.rounds[n]);
    BlankMeans(run.rounds[n].streamed);
  }

  lemma BlankMeans(s: string)
    ensures Blank(s) <==> forall c | c in s :: IsSpace(c)
  {
    hide IsSpace;
    assert forall i | 0 <= i < |s| :: s[i] in s;
  }

  /** The dispatches made before. */
  function RanBefore(log: seq<Handled>): set<int> { set i | 0 <= i < |log| && log[i].act.Dispatched? }

  lemma {:induction false} DispatchesSoFar(log: seq<Handled>)
    ensures TotalDispatches(log) == |RanBefore(log)|
  {
    if log != [] {
      var n := |log| - 1;
      DispatchesSoFar(log[..n]);
      assert RanBefore(log) == RanBefore(log[..n]) + (if log[n].act.Dispatched? then {n} else {});
      assert n !in RanBefore(log[..n]);
    } else {
      assert RanBefore(log) == {};
    }
  }

  /** Every handled call, in the order of the log, got the result of its dispatch - the next one in this
      turn - or the notice for why it was skipped. */
  lemma CallIsAnswered(cfg: Config, world: World, req: Request, stored: seq<Row>, events: seq<Event>,
                       outcome: Outcome, run: Run, m: nat)
    requires RunOk(cfg, world, req, stored, events, outcome, run) && m < |run.Log()|
    ensures var before, h := run.Log()[..m], run.Log()[m];
            && h.act == Decide(before, h.index, cfg.maxToolCallsPerStep, h.call)
            && h.result == if h.act.Dispatched? then world.tool(|RanBefore(before)|, h.call)
               else world.notice(h.act, h.call)
  {
    hide EndedAs, RoundsOk, Honest, OpenOk, Unarmed, Paced, Started, FirstFailure, LogOk, Told, Decide, LogOf,
         RanBefore;
    LogAt(world, run.Log(), cfg.maxToolCallsPerStep, m);
    DispatchesSoFar(run.Log()[..m]);
  }

  /** The automatic search runs exactly when tools are armed, web_search is among them and the question
      wants it; it is the first dispatch. */
  lemma AutoSearchIs(cfg: Config, world: World, req: Request, stored: seq<Row>, events: seq<Event>,
                     outcome: Outcome, run: Run)
    requires RunOk(cfg, world, req, stored, events, outcome, run) && FirstFailure(cfg, world, req) == None
    ensures run.auto != [] <==> && Armed(cfg, req) && "web_search" in cfg.registry.value
                                && world.wantsWebSearch(req.userText, run.hits != [])
    ensures var call := ToolCall("call_auto_web_" + world.callSuffix, "web_search",
                                 world.webSearchArguments(req.userText));
            run.auto != [] ==> run.auto == [Handled(0, call, Dispatched, world.tool(0, call))]
  {
    hide Ended, EndedAs, Honest, OpenOk, Unarmed, Paced, FirstFailure, Prompt, Found;
    StepsAndArms(cfg, req);
    AutoResult(cfg, world, req, stored, events, outcome, run);
  }

  // --- When a turn ends ----------------------------------------------------------------------

  /** A round polls the client once before its call, unless that is the one after the last step, once for
      each chunk and once for each call it handles; it writes its row and each result. */
  lemma RoundCounts(world: World, armed: bool, rounds: seq<Round>, r: Round)
    ensures Polls(world, armed, []) == 0 && Rows([]) == []
    ensures Polls(world, armed, rounds + [r])
            == Polls(world, armed, rounds) + (if r.nudged then 0 else 1)
               + |world.llm(|rounds|, r.handed, armed && !r.nudged).chunks| + |r.handled|
    ensures |Rows(rounds + [r])| == |Rows(rounds)| + 1 + |r.handled|
  {
    hide Script, RoundEvents;
    SnocCounts(world, armed, rounds, r);
  }

  /** A turn that completes was never aborted at a poll it made, no write of it failed, and its last reply
      asked for nothing. */
  lemma CompletedUndisturbed(cfg: Config, world: World, req: Request, stored: seq<Row>, events: seq<Event>,
                             outcome: Outcome, run: Run)
    requires RunOk(cfg, world, req, stored, events, outcome, run) && outcome == Completed
    ensures run.rounds != [] && run.rounds[|run.rounds| - 1].row.toolCalls == [] && run.open == [] && run.lost == []
    ensures forall p: nat | p < 1 + (if req.useRag && cfg.hasKnowledge then 1 else 0)
            + Polls(world, Armed(cfg, req), run.rounds) ::
              !world.aborted(p)
    ensures forall w: nat | w < (if req.persistUser then 1 else 0) + |Rows(run.rounds)| :: !world.writeFails(w)
  {
    hide Ended, Honest, OpenOk, Unarmed, Paced, Polls, Rows, UsageOf, Script, Cited, LogOf, Complete, Prompt, Found,
         AutoSearches, Opening;
    StepsAndArms(cfg, req);
  }

  /** A turn that stops has a reason outside: the client aborted, a write or the search failed, memory could
      not be read, or the model failed with that very code. */
  lemma StopHasItsCause(cfg: Config, world: World, req: Request, stored: seq<Row>, events: seq<Event>,
                        outcome: Outcome, run: Run)
    requires RunOk(cfg, world, req, stored, events, outcome, run) && outcome.Stopped?
    ensures || (outcome.code == "ABORTED" && exists p: nat :: p < run.end.polls && world.aborted(p))
            || (outcome.code == "memory_write_failed" && exists w: nat :: w < run.end.writes && world.writeFails(w))
            || (outcome.code == "memory_read_failed" && world.readFails)
            || (outcome.code == "retrieval_failed" && world.search(req.userText).None?)
            || (run.open != [] && var n := |run.rounds|;
                world.llm(n, run.open[0].handed, Armed(cfg, req) && !run.open[0].nudged).ending == Failed(outcome.code))
  {
    hide Ended, Honest, OpenOk, Unarmed, Paced, Polls, Rows, UsageOf, Script, Cited, LogOf, Complete, Prompt, Found,
         AutoSearches, Opening, LastEvents, Clear, Unfinished, Preamble, Greeting;
    StepsAndArms(cfg, req);
    if FirstFailure(cfg, world, req).Some? {
      assert world.aborted(0) || world.aborted(1) || world.readFails || world.search(req.userText).None?
             || world.writeFails(0);
    } else if run.open == [] {
      WaitingCause(world, PreparePolls(cfg, req) + Polls(world, ToolsArmed(cfg, req), run.rounds),
                   |run.asked| + |Rows(run.rounds)|, run.end, run.lost, outcome.code);
    } else {
      var o := run.open[0];
      AskingCause(world, ReplyTo(world, ToolsArmed(cfg, req), |run.rounds|, o.handed, o.nudged),
                  AskedAfter(world, ToolsArmed(cfg, req), Origin(cfg, world, req, run), run.rounds, o.nudged),
                  |run.asked| + |Rows(run.rounds)|, run.end, outcome.code);
    }
  }

  lemma WaitingCause(world: World, polls: nat, writes: nat, now: Turn, lost: seq<Handled>, code: string)
    requires StoppedWaiting(world, polls, writes, now, lost, code)
    ensures || (code == "ABORTED" && polls < now.polls && world.aborted(polls))
            || (code == "memory_write_failed" && writes < now.writes && world.writeFails(writes))
  {
    hide Clear;
  }

  lemma AskingCause(world: World, reply: Reply, polls: nat, writes: nat, now: Turn, code: string)
    requires StoppedAsking(world, reply, polls, writes, now, code)
    ensures || (code == "ABORTED" && exists p: nat :: p < now.polls && world.aborted(p))
            || (code == "memory_write_failed" && writes < now.writes && world.writeFails(writes))
            || reply.ending == Failed(code)
  {
    hide Clear;
  }

  /** The usage of a turn is what the last round that reported any reported. */
  lemma {:induction false} UsageIsLastReported(world: World, armed: bool, rounds: seq<Round>)
    ensures var usage := UsageOf(world, armed, rounds);
            && (usage.None? ==> forall n | 0 <= n < |rounds| :: Reported(world, armed, rounds, n) == None)
            && (usage.Some? ==> exists n: nat | n < |rounds| ::
                  Reported(world, armed, rounds, n) == usage
                  && forall m | n < m < |rounds| :: Reported(world, armed, rounds, m) == None)
  {
    hide UsageOf, Reported;
    if rounds == [] {
      NoUsage(world, armed);
    } else {
      var n := |rounds| - 1;
      UsageIsLastReported(world, armed, rounds[..n]);
      UsageNext(world, armed, rounds);
    }
  }

  lemma NoUsage(world: World, armed: bool)
    ensures UsageOf(world, armed, []) == None
  {
  }

  lemma UsageNext(world: World, armed: bool, rounds: seq<Round>)
    requires rounds != []
    ensures var n := |rounds| - 1;
            && UsageOf(world, armed, rounds)
               == (if Reported(world, armed, rounds, n).Some? then Reported(world, armed, rounds, n)
                                                 else UsageOf(world, armed, rounds[..n]))
            && forall m: nat | m < n :: Reported(world, armed, rounds[..n], m) == Reported(world, armed, rounds, m)
  {
    hide LastUsage;
  }

  /** The last usage the reply of a round carries. */
  function Reported(world: World, armed: bool, rounds: seq<Round>, n: nat): Option<string>
    requires n < |rounds|
  {
    LastUsage(world.llm(n, rounds[n].handed, armed && !rounds[n].nudged).chunks)
  }

  // --- Requests ------------------------------------------------------------------------------

  /** Asking runs the turn asked for on the memory found. Regenerating answers the last question again, on
      the memory up to it, with tools and without storing it; without one it does nothing. */
  lemma RequestRuns(op: Op, record: Record)
    requires Served(op, record)
    ensures op.Ask? ==>
              RunOk(op.cfg, op.world, op.req, record.before, record.events, record.outcome, record.run)
              && Left(record) == After(record.before, record.run)
    ensures op.Regenerate? && (exists i | 0 <= i < |record.before| :: record.before[i].role.User?) ==>
              exists n: nat | 0 < n <= |record.before| && record.before[n - 1].role.User?
                              && (forall i | n <= i < |record.before| :: !record.before[i].role.User?) ::
                && RunOk(op.cfg, op.world,
                         Request(record.before[n - 1].content, op.useRag, true, None, false, op.quiet),
                         record.before[..n], record.events, record.outcome, record.run)
                && Left(record) == After(record.before[..n], record.run)
    ensures op.Regenerate? && (forall i | 0 <= i < |record.before| :: !record.before[i].role.User?) ==>
              record.events == [] && HandedLists(record.run) == [] && Left(record) == []
  {
    hide RunOk;
    if op.Regenerate? && UpToLastUser(record.before) == 0 {
      NoRounds();
      assert record.stored == [];
    }
  }
}
