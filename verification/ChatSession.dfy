/** The laws of a turn, read off its record, and of whole conversations of turns. */
module ChatSession {
  import opened Wrappers
  import opened Messages
  import opened ToolHelpers
  import opened Tokens
  import opened History
  import opened Sources
  import opened Text
  import opened ChatMemory
  import opened ChatRun
  import opened ChatReply
  import opened ChatService
  import opened ChatTranscript
  import opened ChatCrash

  // --- One turn ----------------------------------------------------------------------------

  /** Every turn emits exactly one done or error event and it is the last; each tool call is followed at
      once by its own result. Only a turn whose model asks for a tool when no registry is attached does
      not. It is a done event exactly on success. */
  lemma StreamShape(cfg: Config, world: World, req: Request, stored: seq<Row>, events: seq<Event>,
                    outcome: Outcome, run: Run)
    requires RunOk(cfg, world, req, stored, events, outcome, run)
    ensures WellShaped(events) <==> !AsksUnarmed(cfg, world, req, stored)
    ensures cfg.registry.Some? || AsksWhenOffered(world) ==> WellShaped(events)
    ensures WellShaped(events) ==> (events[|events| - 1].DoneEvent? <==> outcome == Completed)
  {
    hide RunOk, WellShaped, CallsOf, ResultsOf, HitsOf, Spoken, PhaseOf, AsksUnarmed, AsksWhenOffered;
    ClosedMeansWellShaped(events);
    ShapeFacts(events);
    TurnTells(cfg, world, req, stored, events, outcome, run);
    CrashIff(cfg, world, req, stored, events, outcome, run);
    if outcome != Crashed {
      LastEvent(cfg, world, req, stored, events, outcome, run);
    }
    if cfg.registry.Some? || AsksWhenOffered(world) {
      OfferedNeverCrashes(cfg, world, req, stored);
    }
  }

  /** The last event says how the turn ended. */
  lemma LastEvent(cfg: Config, world: World, req: Request, stored: seq<Row>, events: seq<Event>,
                  outcome: Outcome, run: Run)
    requires RunOk(cfg, world, req, stored, events, outcome, run) && outcome != Crashed
    ensures LastIs(events, if outcome.Stopped? then ErrorEvent(outcome.code)
                           else DoneEvent(UsageOf(world, ToolsArmed(cfg, req), run.rounds), Cited(run.hits, run.Log())))
  {
    hide FirstFailure, Opening, Script, LastEvents, Cited, UsageOf, Ended, Honest, OpenOk, Paced, Unarmed, Started,
         EndedAs, ToolsArmed;
    EventsAreTranscript(cfg, world, req, stored, events, outcome, run);
  }

  lemma ShapeFacts(events: seq<Event>)
    ensures WellShaped(events) ==> events != [] && Terminal(events[|events| - 1])
  {
  }

  /** The bounds of a turn: model calls, dispatches - as many as its log shows - and per-tool limits. */
  lemma TurnBounds(cfg: Config, world: World, req: Request, stored: seq<Row>, events: seq<Event>,
                   outcome: Outcome, run: Run)
    requires RunOk(cfg, world, req, stored, events, outcome, run) && cfg.Valid()
    ensures run.end.calls == |run.rounds| + |run.open| <= cfg.maxSteps + 1
    ensures req.maxSteps.Some? ==> run.end.calls <= (if req.maxSteps.value < 0 then 0 else req.maxSteps.value) + 1
    ensures run.end.ledger.dispatches == TotalDispatches(run.Log()) <= |run.rounds| * cfg.maxToolCallsPerStep + 1
    ensures Dispatches(run.Log(), "web_search") <= 1 && Dispatches(run.Log(), "web_fetch") <= 2
    ensures forall i, j | 0 <= i < j < |run.Log()| && run.Log()[i].act.Dispatched? && run.Log()[j].act.Dispatched? ::
              ToolCallKey(run.Log()[i].call) != ToolCallKey(run.Log()[j].call)
  {
    hide RoundsOk, LogOk, CallsOf, ResultsOf, Spoken, Honest, OpenOk, Prompt, LogOf, TotalDispatches, Dispatches,
         FailedAtOnce, Started, CompletedOk, CrashedOk, StoppedOk, FirstFailure, Told;
    var log, cap := run.Log(), cfg.maxToolCallsPerStep;
    LimitsHold(log, cap, "web_search");
    LimitsHold(log, cap, "web_fetch");
    forall i, j | 0 <= i < j < |log| && log[i].act.Dispatched? && log[j].act.Dispatched?
      ensures ToolCallKey(log[i].call) != ToolCallKey(log[j].call)
    {
      NeverRunTwice(log, cap, i, j);
    }
    forall h | h in log && h.act.Dispatched? ensures h.index < cap {
      var i :| 0 <= i < |log| && log[i] == h;
      DispatchedUnderCap(log, cap, i);
    }
    RoundsAnswerInOrder(cfg.setting, run.base, run.hits, run.auto, run.rounds);
    DispatchBound(run.auto, run.rounds, run.lost, cap);
  }

  lemma PromptOrphanFree(cfg: Config, world: World, req: Request, stored: seq<Row>, hits: seq<Hit>, auto: seq<Handled>)
    requires OrphanFree(FromRows(stored))
    ensures OrphanFree(Prompt(cfg, world, req, stored, hits, auto))
  {
    hide OrphanFree;
    var prelude := SystemRows(world.prelude(hits, ToolsArmed(cfg, req)));
    var history := CompactRows(cfg.shrink, FromRows(stored));
    var found := if auto == [] then [] else AutoRows(cfg.setting, auto[0]);
    ToolFreeOrphanFree(prelude);
    CompactKeepsShape(cfg.shrink, FromRows(stored));
    ToolFreeOrphanFree(Asked(req));
    AutoRowsBlocks(cfg.setting, auto);
    BlocksOrphanFree(found);
    OrphanFreeAppend(prelude, history);
    OrphanFreeAppend(prelude + history, Asked(req));
    OrphanFreeAppend(prelude + history + Asked(req), found);
  }

  lemma AutoRowsBlocks(setting: Setting, auto: seq<Handled>)
    ensures Blocks(if auto == [] then [] else AutoRows(setting, auto[0]))
  {
    if auto != [] {
      var rows := AutoRows(setting, auto[0]);
      BlockOfOne(rows[1], [rows[2]]);
      ToolFreeBlocks([rows[0]]);
      BlocksAppend([rows[0]], [rows[1]] + [rows[2]]);
      assert [rows[0]] + ([rows[1]] + [rows[2]]) == rows;
    }
  }

  lemma PromptBlocks(cfg: Config, world: World, req: Request, stored: seq<Row>, hits: seq<Hit>, auto: seq<Handled>)
    requires Blocks(FromRows(stored)) && NonEmptyIds(FromRows(stored))
    requires auto != [] ==> auto[0].call.id != ""
    ensures Blocks(Prompt(cfg, world, req, stored, hits, auto))
    ensures NonEmptyIds(Prompt(cfg, world, req, stored, hits, auto))
  {
    hide Blocks;
    var prelude := SystemRows(world.prelude(hits, ToolsArmed(cfg, req)));
    var history := CompactRows(cfg.shrink, FromRows(stored));
    var found := if auto == [] then [] else AutoRows(cfg.setting, auto[0]);
    assert Blocks(prelude) by { ToolFreeBlocks(prelude); }
    assert Blocks(history) && NonEmptyIds(history) by { CompactKeepsShape(cfg.shrink, FromRows(stored)); }
    assert Blocks(Asked(req)) by { ToolFreeBlocks(Asked(req)); }
    assert Blocks(found) by { AutoRowsBlocks(cfg.setting, auto); }
    BlocksAppend(prelude, history);
    BlocksAppend(prelude + history, Asked(req));
    BlocksAppend(prelude + history + Asked(req), found);
    assert NonEmptyIds(found);
  }

  /** All the lists a turn handed to the model, one for each call it made. */
  function HandedLists(run: Run): (lists: seq<seq<Message>>)
    ensures |lists| == |run.rounds| + |run.open|
  {
    seq(|run.rounds|, i requires 0 <= i < |run.rounds| => run.rounds[i].handed)
    + seq(|run.open|, i requires 0 <= i < |run.open| => run.open[i].handed)
  }

  /** If stored memory was orphan-free, every list handed to the model is: each tool row has an
      earlier assistant row declaring its id. No condition on ids, budget, tools or timing. */
  lemma HandedListsOrphanFree(cfg: Config, world: World, req: Request, stored: seq<Row>, events: seq<Event>,
                              outcome: Outcome, run: Run, n: nat)
    requires RunOk(cfg, world, req, stored, events, outcome, run)
    requires OrphanFree(FromRows(stored)) && n < |HandedLists(run)|
    ensures OrphanFree(HandedLists(run)[n])
  {
    hide OrphanFree, RoundsOk, LogOk, Honest, Prompt, Fitted, Rows, CompletedOk, CrashedOk, StoppedOk, FirstFailure;
    PromptOrphanFree(cfg, world, req, stored, run.hits, run.auto);
    if n < |run.rounds| {
      HandedOrphanFree(cfg.setting, run.base, run.hits, run.auto, run.rounds, n);
    } else {
      assert HandedLists(run)[n] == run.open[0].handed;
      RowsOrphanFree(cfg.setting, run.base, run.hits, run.auto, run.rounds);
      HandOver(cfg.setting, |run.rounds|, run.base, Rows(run.rounds), false);
      HandOver(cfg.setting, |run.rounds|, run.base, Rows(run.rounds), true);
    }
  }

  /** If stored memory was whole blocks and ids are never empty, every list handed to the model is
      whole blocks too. */
  lemma HandedListsBlocks(cfg: Config, world: World, req: Request, stored: seq<Row>, events: seq<Event>,
                          outcome: Outcome, run: Run, n: nat)
    requires RunOk(cfg, world, req, stored, events, outcome, run) && n < |HandedLists(run)|
    requires Blocks(FromRows(stored)) && NonEmptyIds(FromRows(stored)) && NamedCalls(run.rounds)
    ensures Blocks(HandedLists(run)[n])
  {
    hide Blocks, NonEmptyIds, RoundsOk, LogOk, Honest, Prompt, Fitted, Rows, NamedCalls, Complete, CompletedOk,
         CrashedOk, StoppedOk, FirstFailure, AutoSearches;
    PromptBlocks(cfg, world, req, stored, run.hits, run.auto);
    if n < |run.rounds| {
      HandedBlocks(cfg.setting, run.base, run.hits, run.auto, run.rounds, n);
    } else {
      assert HandedLists(run)[n] == run.open[0].handed;
      RowsAreBlocks(cfg.setting, run.base, run.hits, run.auto, run.rounds);
      assert NonEmptyIds(Rows(run.rounds)) by {
        RoundsAnswerInOrder(cfg.setting, run.base, run.hits, run.auto, run.rounds);
        RowsNonEmptyIds(run.rounds);
      }
      HandOverBlocks(cfg.setting, |run.rounds|, run.base, Rows(run.rounds), false);
      HandOverBlocks(cfg.setting, |run.rounds|, run.base, Rows(run.rounds), true);
    }
  }

  /** The list a model call started from: prompt, rows so far, and the nudge of the last call. */
  function OfferedTo(cfg: Config, run: Run, n: nat): seq<Message>
    requires n < |run.rounds| + |run.open|
  {
    var nudged := if n < |run.rounds| then run.rounds[n].nudged else run.open[n - |run.rounds|].nudged;
    cfg.setting.Offer(run.base, Rows(if n < |run.rounds| then run.rounds[..n] else run.rounds), nudged)
  }

  /** Every list handed to the model fits the input budget, or is at most a leading system row and the
      last row of the list it was fitted from. */
  lemma HandedListsFit(cfg: Config, world: World, req: Request, stored: seq<Row>, events: seq<Event>,
                       outcome: Outcome, run: Run, n: nat)
    requires RunOk(cfg, world, req, stored, events, outcome, run) && n < |HandedLists(run)|
    requires cfg.setting.window.Some? && Monotone(cfg.setting.window.value.count)
    ensures HandedLists(run)[n] == Fitted(cfg.setting.WindowAt(n), OfferedTo(cfg, run, n))
    ensures var w := cfg.setting.WindowAt(n).value;
            w.Fits(HandedLists(run)[n]) || OnlyLast(w, HandedLists(run)[n], OfferedTo(cfg, run, n))
  {
    hide RoundsOk, LogOk, Honest, Prompt, Fitted, Rows, FailedAtOnce, Started, CompletedOk, CrashedOk, StoppedOk,
         FirstFailure, OnlyLast;
    if n < |run.rounds| {
      RoundsPrefix(cfg.setting, run.base, run.hits, run.auto, run.rounds, n);
    } else {
      assert HandedLists(run)[n] == run.open[0].handed;
    }
    FittedOverflowIsLastRow(cfg.setting.WindowAt(n).value, OfferedTo(cfg, run, n));
  }

  /** Memory after a turn. */
  function After(stored: seq<Row>, run: Run): seq<Row> {
    stored + ToRows(run.asked) + ToRows(Rows(run.rounds))
  }

  /** Stored memory as the next turn will read it. */
  lemma StoredAfter(stored: seq<Row>, asked: seq<Message>, rows: seq<Message>)
    ensures SameShapes(FromRows(stored + ToRows(asked) + ToRows(rows)), FromRows(stored) + asked + rows)
  {
    hide FromRow, ToRow;
    StorageKeepsShape(asked);
    StorageKeepsShape(rows);
    assert FromRows(stored + ToRows(asked) + ToRows(rows))
           == FromRows(stored) + FromRows(ToRows(asked)) + FromRows(ToRows(rows));
  }

  /** A turn leaves stored memory orphan-free, even when it was aborted or failed midway. */
  lemma StoredOrphanFree(cfg: Config, world: World, req: Request, stored: seq<Row>, events: seq<Event>,
                         outcome: Outcome, run: Run)
    requires RunOk(cfg, world, req, stored, events, outcome, run) && OrphanFree(FromRows(stored))
    ensures OrphanFree(FromRows(After(stored, run)))
  {
    hide OrphanFree, RoundsOk, LogOk, Honest, Prompt, Fitted, Rows, OpenOk, FromRow, ToRow, CompletedOk, CrashedOk,
         StoppedOk, FirstFailure;
    var rows := Rows(run.rounds);
    RowsOrphanFree(cfg.setting, run.base, run.hits, run.auto, run.rounds);
    ToolFreeOrphanFree(run.asked);
    OrphanFreeAppend(FromRows(stored), run.asked);
    OrphanFreeAppend(FromRows(stored) + run.asked, rows);
    StoredAfter(stored, run.asked, rows);
    ShapeDecidesOrphans(FromRows(stored + ToRows(run.asked) + ToRows(rows)), FromRows(stored) + run.asked + rows);
  }

  /** The rows of the last round are unanswered exactly when it is incomplete. */
  lemma StoredBlocksIffComplete(cfg: Config, world: World, req: Request, stored: seq<Row>, events: seq<Event>,
                                outcome: Outcome, run: Run)
    requires RunOk(cfg, world, req, stored, events, outcome, run) && Blocks(FromRows(stored))
    ensures Blocks(FromRows(After(stored, run))) <==> run.rounds == [] || Complete(run.rounds[|run.rounds| - 1])
  {
    hide Blocks, RoundsOk, LogOk, Honest, Prompt, Fitted, Rows, OpenOk, FromRow, ToRow, Complete,
         CompletedOk, CrashedOk, StoppedOk, FirstFailure;
    var rows := Rows(run.rounds);
    var was := FromRows(stored) + run.asked;
    assert Blocks(was) by {
      ToolFreeBlocks(run.asked);
      BlocksAppend(FromRows(stored), run.asked);
    }
    StoredBlocksIffAnswered(cfg.setting, run.base, run.hits, run.auto, run.rounds, was);
    var now := FromRows(After(stored, run));
    StoredAfter(stored, run.asked, rows);
    assert SameShapes(was + rows, now) && SameShapes(now, was + rows);
    if Blocks(was + rows) { ShapeKeepsBlocks(was + rows, now); }
    if Blocks(now) { ShapeKeepsBlocks(now, was + rows); }
  }

  /** Polls a turn has made when it begins to answer the calls of its last round. */
  function PollsBefore(cfg: Config, world: World, req: Request, run: Run): nat
    requires run.rounds != []
  {
    var n := |run.rounds| - 1;
    PreparePolls(cfg, req) + Polls(world, ToolsArmed(cfg, req), run.rounds[..n])
    + PollsIn(world, ToolsArmed(cfg, req), n, run.rounds[n].(handled := []))
  }

  /** Writes it has made by then, the row that asks included. */
  function WritesBefore(run: Run): nat
    requires run.rounds != []
  {
    |run.asked| + |Rows(run.rounds[..|run.rounds| - 1])| + 1
  }

  /** The world interrupts the answering of the last stored round: the client aborts at the poll before
      one of its calls, the write of one of its results fails, or there is nothing to run tools with. */
  ghost predicate Interrupted(cfg: Config, world: World, req: Request, run: Run) {
    run.rounds != [] &&
    var calls := |run.rounds[|run.rounds| - 1].row.toolCalls|;
    || (cfg.registry.None? && calls > 0)
    || exists k: nat :: k < calls && Interrupts(world, PollsBefore(cfg, world, req, run), WritesBefore(run), k)
  }

  predicate Interrupts(world: World, polls: nat, writes: nat, k: nat) {
    world.aborted(polls + k) || world.writeFails(writes + k)
  }

  /** Up to everything on record the world let the turn go on. */
  lemma RunIsClear(cfg: Config, world: World, req: Request, stored: seq<Row>, events: seq<Event>,
                   outcome: Outcome, run: Run)
    requires RunOk(cfg, world, req, stored, events, outcome, run) && FirstFailure(cfg, world, req) == None
    ensures Clear(world, PreparePolls(cfg, req) + Polls(world, ToolsArmed(cfg, req), run.rounds),
                  |run.asked| + |Rows(run.rounds)|)
  {
    hide Ended, Honest, OpenOk, Paced, Unarmed, Started, FirstFailure, EndedAs, Polls, Rows, ToolsArmed;
    ClearUpTo(cfg, world, req, outcome, run.end, Origin(cfg, world, req, run), run.rounds, run.open, run.lost);
  }

  lemma ClearUpTo(cfg: Config, world: World, req: Request, outcome: Outcome, now: Turn, s: Start, rounds: seq<Round>,
                  open: seq<Unstored>, lost: seq<Handled>)
    requires EndedAs(cfg, world, req, outcome, now, s, rounds, open, lost)
    ensures Clear(world, s.polls + Polls(world, ToolsArmed(cfg, req), rounds), s.writes + |Rows(rounds)|)
  {
    hide Polls, Rows, ToolsArmed, EffectiveSteps, Answered, Stranded, Unfinished, LastEvents, Script, UsageOf, Cited,
         LogOf;
  }

  lemma LastRoundCounts(cfg: Config, world: World, req: Request, run: Run)
    requires run.rounds != []
    ensures var handled := |run.rounds[|run.rounds| - 1].handled|;
            && PreparePolls(cfg, req) + Polls(world, ToolsArmed(cfg, req), run.rounds)
               == PollsBefore(cfg, world, req, run) + handled
            && |run.asked| + |Rows(run.rounds)| == WritesBefore(run) + handled
  {
    hide Script, RoundEvents, Rows, Polls;
    var n := |run.rounds| - 1;
    SnocCounts(world, ToolsArmed(cfg, req), run.rounds[..n], run.rounds[n]);
    assert run.rounds == run.rounds[..n] + [run.rounds[n]];
  }

  /** The last round was left incomplete exactly when the world interrupted it. */
  lemma IncompleteIff(cfg: Config, world: World, req: Request, stored: seq<Row>, events: seq<Event>,
                      outcome: Outcome, run: Run)
    requires RunOk(cfg, world, req, stored, events, outcome, run)
    ensures Interrupted(cfg, world, req, run) <==> run.rounds != [] && !Complete(run.rounds[|run.rounds| - 1])
  {
    hide RunOk, Complete, Rows, Polls, PollsBefore, WritesBefore, FirstFailure, Interrupts, ToolsArmed;
    if run.rounds != [] {
      var last := run.rounds[|run.rounds| - 1];
      LastRoundIsHandled(cfg, world, req, stored, events, outcome, run);
      LastRoundCounts(cfg, world, req, run);
      RunIsClear(cfg, world, req, stored, events, outcome, run);
      var p, w := PollsBefore(cfg, world, req, run), WritesBefore(run);
      forall k: nat | k < |last.handled| ensures !Interrupts(world, p, w, k) {
        NoInterruption(world, p, w, |last.handled|, k);
      }
      if |last.handled| < |last.row.toolCalls| && cfg.registry.Some? {
        IncompleteMeansStopped(cfg, world, req, stored, events, outcome, run);
        InterruptsAt(world, p, w, |last.handled|);
      }
    }
  }

  lemma LastRoundIsHandled(cfg: Config, world: World, req: Request, stored: seq<Row>, events: seq<Event>,
                           outcome: Outcome, run: Run)
    requires RunOk(cfg, world, req, stored, events, outcome, run) && run.rounds != []
    ensures FirstFailure(cfg, world, req) == None
    ensures var last := run.rounds[|run.rounds| - 1];
            && |last.handled| <= |last.row.toolCalls| && (Complete(last) <==> |last.handled| == |last.row.toolCalls|)
            && (cfg.registry.None? ==> last.handled == [])
  {
    hide Honest, OpenOk, Paced, Started, FirstFailure, EndedAs, RoundsOk, Tally;
    RoundsAnswerInOrder(cfg.setting, run.base, run.hits, run.auto, run.rounds);
    assert run.rounds[|run.rounds| - 1] in run.rounds;
  }

  /** With a registry at hand only the next poll or write can leave calls unanswered. */
  lemma IncompleteMeansStopped(cfg: Config, world: World, req: Request, stored: seq<Row>, events: seq<Event>,
                               outcome: Outcome, run: Run)
    requires RunOk(cfg, world, req, stored, events, outcome, run) && FirstFailure(cfg, world, req) == None
    requires run.rounds != [] && !Complete(run.rounds[|run.rounds| - 1]) && cfg.registry.Some?
    ensures var p, w := PreparePolls(cfg, req) + Polls(world, ToolsArmed(cfg, req), run.rounds),
            |run.asked| + |Rows(run.rounds)|;
            world.aborted(p) || world.writeFails(w)
  {
    hide Ended, Honest, Paced, Unarmed, Started, FirstFailure, Complete, Polls, Rows, ToolsArmed, EffectiveSteps,
         Unfinished, LastEvents, Script, UsageOf, Cited, LogOf, Vigilant, Clear;
  }

  lemma InterruptsAt(world: World, p: nat, w: nat, k: nat)
    requires world.aborted(p + k) || world.writeFails(w + k)
    ensures Interrupts(world, p, w, k)
  {
  }

  lemma NoInterruption(world: World, p: nat, w: nat, n: nat, k: nat)
    requires Clear(world, p + n, w + n) && k < n
    ensures !Interrupts(world, p, w, k)
  {
  }

  /** Whole blocks in memory stay whole exactly when the world does not interrupt the answering of the
      last round the turn stored. */
  lemma StoredBlocksIff(cfg: Config, world: World, req: Request, stored: seq<Row>, events: seq<Event>,
                        outcome: Outcome, run: Run)
    requires RunOk(cfg, world, req, stored, events, outcome, run) && Blocks(FromRows(stored))
    ensures Blocks(FromRows(After(stored, run))) <==> !Interrupted(cfg, world, req, run)
    ensures outcome == Completed ==> Blocks(FromRows(After(stored, run)))
  {
    hide Blocks, RoundsOk, LogOk, Honest, Prompt, Rows, OpenOk, Complete, Interrupted, StoppedOk, CrashedOk;
    StoredBlocksIffComplete(cfg, world, req, stored, events, outcome, run);
    IncompleteIff(cfg, world, req, stored, events, outcome, run);
  }

  // --- A turn that is interrupted ------------------------------------------------------------

  /** A model that asks for one tool, and a client that aborts at the poll before it is run. */
  function AbortingWorld(): World {
    World((n, ms, offered) => Reply([Chunk("", "", [ToolCall("c", "t", Arguments("{}", "{}"))], None)], Finished),
          (n, call) => ToolResult("", false, None), p => p == 3, w => false, false, q => None, (hits, armed) => [],
          (text, found) => false, text => Arguments("{}", "{}"), "", (act, call) => ToolResult("", true, None), c => c)
  }

  function AbortedConfig(): Config {
    Config(1, 1, Setting(None, "", found => "", ""), (text, name) => text, Some({"t"}), false)
  }

  function AbortedRequest(): Request { Request("hi", false, true, None, true, true) }

  lemma AbortedPolls(rounds: seq<Round>)
    requires rounds != [] && Honest(AbortingWorld(), true, rounds) && !rounds[0].nudged
    ensures |rounds[0].row.toolCalls| == 1
    ensures |rounds| == 1 ==> Polls(AbortingWorld(), true, rounds[..0]) == 0
    ensures |rounds| == 2 && Complete(rounds[0]) ==> Polls(AbortingWorld(), true, rounds) >= 3
  {
    var reply := AbortingWorld().llm(0, rounds[0].handed, true);
    var call := ToolCall("c", "t", Arguments("{}", "{}"));
    assert reply.chunks == [Chunk("", "", [call], None)];
    assert AllCalls(reply.chunks) == [] + [call] by { assert reply.chunks[..0] == []; }
    assert FromModel(AbortingWorld(), true, 0, rounds[0]);
    if |rounds| == 2 {
      assert rounds[..1][..0] == [];
      assert Polls(AbortingWorld(), true, rounds[..1]) == PollsIn(AbortingWorld(), true, 0, rounds[0]);
    }
  }

  lemma AbortedAsks(events: seq<Event>, outcome: Outcome, run: Run)
    requires RunOk(AbortedConfig(), AbortingWorld(), AbortedRequest(), [], events, outcome, run)
    ensures run.rounds != []
  {
    hide Ended, Prompt, Fitted, Rows, OpenOk, Polls, Started, UsageOf, Honest, AllCalls;
    if run.rounds == [] {
      NothingPolled(AbortingWorld());
    }
  }

  lemma AbortedOnce(events: seq<Event>, outcome: Outcome, run: Run)
    requires RunOk(AbortedConfig(), AbortingWorld(), AbortedRequest(), [], events, outcome, run) && run.rounds != []
    ensures |run.rounds| == 1 && |run.rounds[0].row.toolCalls| == 1
  {
    hide RoundsOk, Prompt, Fitted, Rows, OpenOk, Polls, Started, UsageOf, Honest, AllCalls, StoppedOk, CrashedOk,
         CompletedOk, Complete;
    assert FirstFailure(AbortedConfig(), AbortingWorld(), AbortedRequest()) == None;
    RunIsClear(AbortedConfig(), AbortingWorld(), AbortedRequest(), [], events, outcome, run);
    assert ToolsArmed(AbortedConfig(), AbortedRequest()) && EffectiveSteps(AbortedConfig(), AbortedRequest()) == 1;
    assert PreparePolls(AbortedConfig(), AbortedRequest()) == 1 && AbortingWorld().aborted(3);
    if |run.rounds| == 2 {
      FirstIsComplete(AbortedConfig(), run);
    }
    AbortedPolls(run.rounds);
  }

  lemma AbortedInTime(run: Run)
    requires |run.rounds| == 1 && !run.rounds[0].nudged && Honest(AbortingWorld(), true, run.rounds)
    ensures PollsBefore(AbortedConfig(), AbortingWorld(), AbortedRequest(), run) == 3
  {
    assert ToolsArmed(AbortedConfig(), AbortedRequest());
    AbortedPolls(run.rounds);
  }

  /** Every such turn stops with its call unanswered, so memory is no longer whole blocks. */
  lemma AbortLeavesCallsUnanswered(events: seq<Event>, outcome: Outcome, run: Run)
    requires RunOk(AbortedConfig(), AbortingWorld(), AbortedRequest(), [], events, outcome, run)
    ensures !Blocks(FromRows(After([], run)))
  {
    hide Ended, Prompt, Fitted, Rows, OpenOk, Polls, PollsBefore, WritesBefore, Started, UsageOf, Honest, AllCalls,
         StoppedOk, CrashedOk, CompletedOk, Blocks, FirstFailure, FromRow;
    var cfg, world, req := AbortedConfig(), AbortingWorld(), AbortedRequest();
    assert Blocks(FromRows([])) by { NoRowsAreBlocks(); }
    StoredBlocksIff(cfg, world, req, [], events, outcome, run);
    AbortedAsks(events, outcome, run);
    AbortedOnce(events, outcome, run);
    AbortedInTime(run);
    assert Interrupts(world, PollsBefore(cfg, world, req, run), WritesBefore(run), 0);
  }

  lemma NoRowsAreBlocks()
    ensures Blocks(FromRows([]))
  {
    assert FromRows([]) == [];
  }

  lemma NothingPolled(world: World)
    ensures Polls(world, true, []) == 0 && Rows([]) == []
  {
  }

  lemma FirstIsComplete(cfg: Config, run: Run)
    requires RoundsOk(cfg.setting, run.base, run.hits, run.auto, run.rounds) && |run.rounds| == 2
    ensures Complete(run.rounds[0])
  {
    assert run.rounds[0] in run.rounds[..1];
  }

  /** Running one. */
  method InterruptedTurn() returns (memory: ChatMemory, outcome: Outcome)
    ensures !Blocks(FromRows(memory.rows)) && OrphanFree(FromRows(memory.rows))
  {
    hide Blocks, OrphanFree, RunOk, FromRow;
    memory := new ChatMemory();
    assert FromRows(memory.rows) == [];
    NothingIsOrphanFree();
    var events; ghost var run;
    events, outcome, run := Generate(AbortedConfig(), AbortingWorld(), memory, AbortedRequest());
    StoredOrphanFree(AbortedConfig(), AbortingWorld(), AbortedRequest(), [], events, outcome, run);
    AbortLeavesCallsUnanswered(events, outcome, run);
  }

  // --- What the reader saw -------------------------------------------------------------------

  /** On success the reader saw exactly the text that was stored, except that a blank last
      answer is stored as the fallback alone. */
  lemma StreamMatchesStorage(cfg: Config, world: World, req: Request, stored: seq<Row>, events: seq<Event>,
                             outcome: Outcome, run: Run)
    requires RunOk(cfg, world, req, stored, events, outcome, run) && outcome == Completed
    ensures run.rounds != []
    ensures var last := run.rounds[|run.rounds| - 1];
            if Blank(last.streamed)
            then last.row.content == cfg.setting.Fallback(last.row.sources)
                 && TokenText(events) == Contents(run.rounds[..|run.rounds| - 1]) + (last.streamed + last.row.content)
            else TokenText(events) == Contents(run.rounds)
  {
    hide RunOk, RoundsOk, Spoken, Contents, TokenText, Blank;
    CompletedTells(cfg, world, req, stored, events, outcome, run);
    SpokenIsStored(cfg.setting, run.base, run.hits, run.auto, run.rounds);
  }

  /** Cited sources are numbered 1..n, each stored row cites a prefix of the final list, and the
      usage announced is the last one any round's model reported. */
  lemma SourcesAgree(cfg: Config, world: World, req: Request, stored: seq<Row>, events: seq<Event>,
                     outcome: Outcome, run: Run, n: nat)
    requires RunOk(cfg, world, req, stored, events, outcome, run) && outcome == Completed && n < |run.rounds|
    ensures events[|events| - 1].DoneEvent?
    ensures events[|events| - 1].usage == UsageOf(world, ToolsArmed(cfg, req), run.rounds)
    ensures var cited := events[|events| - 1].cited;
            && run.rounds[n].row.sources <= cited
            && forall i | 0 <= i < |cited| :: cited[i].rank == i + 1
  {
    hide RunOk, RoundsOk, Cited, UsageOf, LogOf, Answered, ToolsArmed;
    CompletedTells(cfg, world, req, stored, events, outcome, run);
    StoredSourcesArePrefix(cfg.setting, run.base, run.hits, run.auto, run.rounds, n);
    RanksAreConsecutive(run.hits, run.Log());
    assert run.Log() == run.auto + LogOf(run.rounds);
  }

  // --- The aggregated reply ----------------------------------------------------------------

  datatype Full = Full(content: string, hits: Option<seq<Hit>>, usage: Option<string>, cited: seq<Source>,
                       toolCalls: seq<ToolCall>, toolResults: seq<Event>, error: Option<string>)

  /** Folds a stream into one reply, stopping at an error event. */
  method Aggregate(events: seq<Event>) returns (full: Full)
    requires PhaseOf(events) == Closed
    ensures full.content == TokenText(events) && full.hits == HitsOf(events)
    ensures full.toolCalls == CallsOf(events) && full.toolResults == ResultsOf(events)
    ensures var last := events[|events| - 1];
            && full.error == (if last.ErrorEvent? then Some(last.code) else None)
            && (if last.DoneEvent? then full.usage == last.usage && full.cited == last.cited
                else full.usage == None && full.cited == [])
  {
    ClosedMeansWellShaped(events);
    full := Full("", None, None, [], [], [], None);
    for i := 0 to |events|
      invariant full.content == TokenText(events[..i]) && full.hits == HitsOf(events[..i])
      invariant full.toolCalls == CallsOf(events[..i]) && full.toolResults == ResultsOf(events[..i])
      invariant full.error == None
      invariant if i == |events| && events[i - 1].DoneEvent?
                then full.usage == events[i - 1].usage && full.cited == events[i - 1].cited
                else full.usage == None && full.cited == []
      invariant i > 0 ==> !events[i - 1].ErrorEvent?
    {
      var e := events[i];
      assert events[..i + 1][..i] == events[..i];
      match e
      case TokenEvent(delta) => full := full.(content := full.content + delta);
      case RetrievalEvent(hits) => full := full.(hits := Some(hits));
      case ToolCallEvent(call) => full := full.(toolCalls := full.toolCalls + [call]);
      case ToolResultEvent(_, _, _) => full := full.(toolResults := full.toolResults + [e]);
      case DoneEvent(usage, cited) => full := full.(usage := usage, cited := cited);
      case ErrorEvent(code) =>
        assert events[..|events|] == events;
        full := full.(error := Some(code));
        break;
      case ThoughtEvent(_) =>
    }
    assert events[..|events|] == events;
  }

  /** The aggregated call: its text is what the rounds spoke and a beginning of the reply that was not
      stored, its tool calls and results match position by position, its hits are those found, and its
      error, usage and sources are those of the turn. */
  method GenerateFull(cfg: Config, world: World, memory: ChatMemory, req: Request)
    returns (full: Full, outcome: Outcome, ghost events: seq<Event>, ghost run: Run)
    requires cfg.Valid() && req.persistUser
    modifies memory
    ensures memory.rows == After(old(memory.rows), run)
    ensures RunOk(cfg, world, req, old(memory.rows), events, outcome, run)
    ensures outcome != Crashed ==>
      && full.content == TokenText(events) == Spoken(run.rounds) + TokenText(Middle(cfg, world, req, outcome, run))
      && full.hits == Announced(cfg, world, req)
      && full.toolCalls == CallsIn(run.Log()) && full.toolResults == ResultsIn(run.Log())
      && |full.toolCalls| == |full.toolResults|
      && (forall i | 0 <= i < |full.toolCalls| :: full.toolResults[i].answered == full.toolCalls[i])
      && full.error == (if outcome.Stopped? then Some(outcome.code) else None)
    ensures outcome.Stopped? ==> full.usage == None && full.cited == []
    ensures outcome == Completed ==>
      && full.content == Spoken(run.rounds)
      && full.usage == UsageOf(world, ToolsArmed(cfg, req), run.rounds) && full.cited == Cited(run.hits, run.Log())
  {
    hide RunOk, Rows, Spoken, TokenText, CallsOf, ResultsOf, HitsOf, PhaseOf, LogOf, Cited, UsageOf, Announced, Middle,
         ToolsArmed;
    var es;
    es, outcome, run := Generate(cfg, world, memory, req);
    events := es;
    full := Full("", None, None, [], [], [], None);
    if outcome != Crashed {
      TurnTells(cfg, world, req, old(memory.rows), es, outcome, run);
      LastEvent(cfg, world, req, old(memory.rows), es, outcome, run);
      full := Aggregate(es);
      if outcome == Completed {
        CompletedTells(cfg, world, req, old(memory.rows), es, outcome, run);
      }
    }
  }

  // --- Conversations -------------------------------------------------------------------------

  lemma {:induction false} TurnRowsHaveNoUser(setting: Setting, base: seq<Message>, hits: seq<Hit>,
                                              auto: seq<Handled>, rounds: seq<Round>)
    requires RoundsOk(setting, base, hits, auto, rounds)
    ensures forall m | m in Rows(rounds) :: !m.role.User?
  {
    if rounds != [] {
      TurnRowsHaveNoUser(setting, base, hits, auto, rounds[..|rounds| - 1]);
    }
  }

  lemma {:induction false} RewindFinds(stored: seq<Row>, tail: seq<Row>)
    requires stored != [] && stored[|stored| - 1].role.User?
    requires forall r | r in tail :: !r.role.User?
    ensures UpToLastUser(stored + tail) == |stored|
  {
    if tail == [] {
      assert stored + tail == stored;
    } else {
      assert tail[|tail| - 1] in tail;
      assert (stored + tail)[..|stored + tail| - 1] == stored + tail[..|tail| - 1];
      RewindFinds(stored, tail[..|tail| - 1]);
    }
  }

  /** Rewinding undoes a turn however it ended: everything it stored after the question goes,
      so an interrupted exchange leaves no trace and the question can be asked afresh. */
  lemma RewindUndoesTurn(cfg: Config, world: World, req: Request, stored: seq<Row>, events: seq<Event>,
                         outcome: Outcome, run: Run)
    requires RunOk(cfg, world, req, stored, events, outcome, run) && run.asked != []
    ensures After(stored, run)[..UpToLastUser(After(stored, run))] == stored + ToRows(run.asked)
  {
    hide RoundsOk, LogOk, Honest, Prompt, Rows, OpenOk, CompletedOk, CrashedOk, StoppedOk, FirstFailure;
    TurnRowsHaveNoUser(cfg.setting, run.base, run.hits, run.auto, run.rounds);
    var tail := ToRows(Rows(run.rounds));
    forall r | r in tail ensures !r.role.User? {
      var i :| 0 <= i < |tail| && tail[i] == r;
      assert Rows(run.rounds)[i] in Rows(run.rounds);
    }
    RewindFinds(stored + ToRows(run.asked), tail);
  }

  /** One request of a client: a new question, or answering the last question again. */
  datatype Op =
    | Ask(cfg: Config, world: World, req: Request)
    | Regenerate(cfg: Config, world: World, useRag: bool, quiet: bool)

  /** What one request did: the rows it found, the rows its turn started from, and the turn. */
  datatype Record = Record(before: seq<Row>, stored: seq<Row>, events: seq<Event>, outcome: Outcome, run: Run)

  /** The turn a request asks for. Regenerating drops everything behind the last question. */
  function StartOf(op: Op, before: seq<Row>): seq<Row> {
    if op.Ask? then before else before[..UpToLastUser(before)]
  }

  /** Regenerating asks the last question again without storing it twice. */
  function RequestOf(op: Op, stored: seq<Row>): Option<Request> {
    if op.Ask? then Some(op.req)
    else if stored == [] then None
    else Some(Request(stored[|stored| - 1].content, op.useRag, true, None, false, op.quiet))
  }

  /** The record is that of serving `op`; without a question to answer nothing is run. */
  predicate Served(op: Op, record: Record) {
    && record.stored == StartOf(op, record.before)
    && match RequestOf(op, record.stored)
       case None => record.events == [] && record.run.asked == [] && record.run.rounds == [] && record.run.open == []
       case Some(req) => RunOk(op.cfg, op.world, req, record.stored, record.events, record.outcome, record.run)
  }

  /** Memory after a request. */
  function Left(record: Record): seq<Row> { After(record.stored, record.run) }

  function LeftBy(records: seq<Record>): seq<Row> {
    if records == [] then [] else Left(records[|records| - 1])
  }

  /** One record for each request, each starting from the memory the one before left. */
  predicate Conversation(ops: seq<Op>, records: seq<Record>) {
    && |records| == |ops|
    && forall i | 0 <= i < |ops| :: records[i].before == LeftBy(records[..i]) && Served(ops[i], records[i])
  }

  /** Every list any request handed to a model, in order. */
  function AllHanded(records: seq<Record>): seq<seq<Message>> {
    if records == [] then [] else AllHanded(records[..|records| - 1]) + HandedLists(records[|records| - 1].run)
  }

  lemma ServedOrphanFree(op: Op, record: Record)
    requires Served(op, record) && OrphanFree(FromRows(record.before))
    ensures OrphanFree(FromRows(Left(record)))
    ensures forall h | h in HandedLists(record.run) :: OrphanFree(h)
  {
    hide OrphanFree, RunOk, ToRow, FromRow, Rows;
    var n := |record.stored|;
    OrphanFreePrefix(FromRows(record.before), n);
    assert FromRows(record.stored) == FromRows(record.before)[..n];
    var req := RequestOf(op, record.stored);
    if req.None? {
      NoRounds();
      assert Left(record) == record.stored;
    } else {
      StoredOrphanFree(op.cfg, op.world, req.value, record.stored, record.events, record.outcome, record.run);
      forall h | h in HandedLists(record.run) ensures OrphanFree(h) {
        var k :| 0 <= k < |HandedLists(record.run)| && HandedLists(record.run)[k] == h;
        HandedListsOrphanFree(op.cfg, op.world, req.value, record.stored, record.events, record.outcome, record.run, k);
      }
    }
  }

  /** Over every conversation - any questions and regenerations, any models, tools, summarisers,
      budgets, failures and aborts - stored memory stays orphan-free and so does every list that
      is ever handed to a model. */
  lemma {:induction false} ConversationOrphanFree(ops: seq<Op>, records: seq<Record>)
    requires Conversation(ops, records)
    ensures OrphanFree(FromRows(LeftBy(records)))
    ensures forall h | h in AllHanded(records) :: OrphanFree(h)
  {
    hide OrphanFree, FromRow, Served, Left;
    if records == [] {
      NothingIsOrphanFree();
      assert FromRows(LeftBy(records)) == [];
    } else {
      var m := |ops| - 1;
      EarlierConversation(ops, records, m);
      ConversationOrphanFree(ops[..m], records[..m]);
      ServedOrphanFree(ops[m], records[m]);
    }
  }

  lemma EarlierConversation(ops: seq<Op>, records: seq<Record>, m: nat)
    requires Conversation(ops, records) && m <= |ops|
    ensures Conversation(ops[..m], records[..m])
  {
    hide Served, Left;
    forall i | 0 <= i < m ensures records[..m][i].before == LeftBy(records[..m][..i]) {
      assert records[..m][..i] == records[..i];
    }
  }

  method Serve(memory: ChatMemory, op: Op) returns (events: seq<Event>, ghost record: Record)
    requires op.cfg.Valid()
    modifies memory
    ensures record.before == old(memory.rows) && record.events == events && Served(op, record)
    ensures memory.rows == Left(record)
  {
    hide RunOk, ToRow, FromRow, Rows;
    ghost var before := memory.rows;
    var req;
    if op.Regenerate? {
      var anchor := memory.RewindToUser();
      if anchor.None? {
        events := [];
        NoRounds();
        record := Record(before, [], [], Completed, NothingRun());
        return;
      }
      req := Request(anchor.value, op.useRag, true, None, false, op.quiet);
    } else {
      req := op.req;
    }
    ghost var stored := memory.rows;
    var outcome; ghost var run;
    events, outcome, run := Generate(op.cfg, op.world, memory, req);
    record := Record(before, stored, events, outcome, run);
  }

  function NothingRun(): Run {
    Run([], [], [], [], [], [], [], Turn([], None, Ledger([], [], {}, map[], 0), 0, 0, 0))
  }

  /** Serves requests one after the other on a new session, and accounts for each of them. */
  method Converse(ops: seq<Op>)
    returns (memory: ChatMemory, events: seq<seq<Event>>, ghost records: seq<Record>, ghost handed: seq<seq<Message>>)
    requires forall op | op in ops :: op.cfg.Valid()
    ensures Conversation(ops, records) && memory.rows == LeftBy(records)
    ensures |events| == |ops| && forall i | 0 <= i < |ops| :: events[i] == records[i].events
    ensures handed == AllHanded(records)
    ensures OrphanFree(FromRows(memory.rows)) && forall h | h in handed :: OrphanFree(h)
  {
    hide OrphanFree, FromRow, Served, Left;
    memory := new ChatMemory();
    events, records, handed := [], [], [];
    for i := 0 to |ops|
      invariant fresh(memory) && |records| == |events| == i
      invariant Conversation(ops[..i], records) && memory.rows == LeftBy(records) && handed == AllHanded(records)
      invariant forall k | 0 <= k < i :: events[k] == records[k].events
    {
      var shown; ghost var record;
      shown, record := Serve(memory, ops[i]);
      ConversationGrows(ops[..i], records, ops[i], record);
      assert ops[..i + 1] == ops[..i] + [ops[i]];
      assert (records + [record])[..i] == records;
      events, records, handed := events + [shown], records + [record], handed + HandedLists(record.run);
    }
    assert ops[..|ops|] == ops;
    ConversationOrphanFree(ops, records);
  }

  lemma ConversationGrows(ops: seq<Op>, records: seq<Record>, op: Op, record: Record)
    requires Conversation(ops, records) && record.before == LeftBy(records) && Served(op, record)
    ensures Conversation(ops + [op], records + [record])
  {
    hide Served, Left;
    var more := records + [record];
    forall i | 0 <= i <= |ops| ensures more[i].before == LeftBy(more[..i]) && Served((ops + [op])[i], more[i]) {
      if i < |ops| {
        assert more[..i] == records[..i] && (ops + [op])[i] == ops[i] && more[i] == records[i];
      } else {
        assert more[..i] == records;
      }
    }
  }

  lemma NothingIsOrphanFree()
    ensures OrphanFree([])
  {
  }
}
