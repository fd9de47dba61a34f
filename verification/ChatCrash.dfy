/** The one turn that ends without a closing event: its model asks for tools though no registry is
    attached, and the loop fails an assertion. */
module ChatCrash {
  import opened Wrappers
  import opened Messages
  import opened History
  import opened Sources
  import opened ChatMemory
  import opened ChatRun
  import opened ChatReply
  import opened ChatService
  import opened ChatTranscript

  /** What the model answers to the first call of a turn that has no registry. */
  function FirstReply(cfg: Config, world: World, req: Request, stored: seq<Row>): Reply {
    world.llm(0, Fitted(cfg.setting.WindowAt(0), Prompt(cfg, world, req, stored, Found(cfg, world, req), [])), false)
  }

  /** No registry is attached, and the first reply, which arrives and is stored, asks for a tool. */
  predicate AsksUnarmed(cfg: Config, world: World, req: Request, stored: seq<Row>) {
    var reply := FirstReply(cfg, world, req, stored);
    && cfg.registry.None? && FirstFailure(cfg, world, req) == None && EffectiveSteps(cfg, req) > 0
    && reply.ending.Finished? && AllCalls(reply.chunks) != []
    && Clear(world, PreparePolls(cfg, req) + 1 + |reply.chunks|, |Asked(req)| + 1)
  }

  /** A model that never asks for tools it was not offered. */
  ghost predicate AsksWhenOffered(world: World) {
    forall n: nat, ms: seq<Message> :: AllCalls(world.llm(n, ms, false).chunks) == []
  }

  /** A turn crashes exactly when no registry is attached and its first reply asks for a tool. */
  lemma CrashIff(cfg: Config, world: World, req: Request, stored: seq<Row>, events: seq<Event>, outcome: Outcome,
                 run: Run)
    requires RunOk(cfg, world, req, stored, events, outcome, run)
    ensures outcome == Crashed <==> AsksUnarmed(cfg, world, req, stored)
  {
    hide *;
    CrashNeeds(cfg, world, req, stored, events, outcome, run);
    UnarmedFacts(cfg, world, req, stored);
    if AsksUnarmed(cfg, world, req, stored) {
      if outcome == Completed {
        CompletedIsArmed(cfg, world, req, stored, events, outcome, run);
      }
      if outcome.Stopped? {
        StoppedIsNoCrash(cfg, world, req, stored, events, outcome, run);
      }
    }
  }

  lemma UnarmedFacts(cfg: Config, world: World, req: Request, stored: seq<Row>)
    ensures AsksUnarmed(cfg, world, req, stored) ==> cfg.registry.None? && FirstFailure(cfg, world, req) == None
  {
    hide FirstFailure, EffectiveSteps, FirstReply, AllCalls, Clear;
  }

  /** Without a registry the first round is the last. */
  lemma OneRound(cfg: Config, base: seq<Message>, hits: seq<Hit>, auto: seq<Handled>, rounds: seq<Round>)
    requires RoundsOk(cfg.setting, base, hits, auto, rounds) && Unarmed(cfg, rounds) && cfg.registry.None?
    ensures |rounds| <= 1
  {
    hide RoundsOk;
    if |rounds| >= 2 {
      FirstIsAnswered(cfg, base, hits, auto, rounds);
    }
  }

  lemma FirstIsAnswered(cfg: Config, base: seq<Message>, hits: seq<Hit>, auto: seq<Handled>, rounds: seq<Round>)
    requires RoundsOk(cfg.setting, base, hits, auto, rounds) && |rounds| >= 2
    ensures Complete(rounds[0]) && rounds[0].row.toolCalls != []
  {
    hide RoundOk, Complete;
    var init := rounds[..|rounds| - 1];
    assert init[0] in init;
  }

  /** What the first round of such a turn is. */
  lemma FirstRound(cfg: Config, world: World, req: Request, stored: seq<Row>, events: seq<Event>, outcome: Outcome,
                   run: Run)
    requires RunOk(cfg, world, req, stored, events, outcome, run)
    requires FirstFailure(cfg, world, req) == None && cfg.registry.None? && run.rounds != []
    ensures |run.rounds| == 1 && run.rounds[0].handled == []
    ensures run.rounds[0].nudged <==> EffectiveSteps(cfg, req) == 0
    ensures run.rounds[0].nudged ==> run.rounds[0].row.toolCalls == []
    ensures var reply := FirstReply(cfg, world, req, stored);
            !run.rounds[0].nudged ==>
              && reply.ending.Finished? && run.rounds[0].row.toolCalls == AllCalls(reply.chunks)
              && Polls(world, false, run.rounds) == 1 + |reply.chunks| && |Rows(run.rounds)| == 1
  {
    hide FirstFailure, EndedAs, Fitted, Prompt, AllCalls, AllThinking, AnswerIn, EffectiveSteps, Cited, LogOf, Found,
         OpenOk, Tally, RoundsOk, RunOk, AnswersInOrder;
    Parts(cfg, world, req, stored, events, outcome, run);
    OneRound(cfg, run.base, run.hits, run.auto, run.rounds);
    var r := run.rounds[0];
    RoundsPrefix(cfg.setting, run.base, run.hits, run.auto, run.rounds, 0);
    assert run.rounds[..0] == [] && run.rounds == [r];
    assert run.base + [] + [] == run.base;
    assert FromModel(world, false, 0, r);
  }

  lemma Parts(cfg: Config, world: World, req: Request, stored: seq<Row>, events: seq<Event>, outcome: Outcome, run: Run)
    requires RunOk(cfg, world, req, stored, events, outcome, run)
    requires FirstFailure(cfg, world, req) == None && cfg.registry.None?
    ensures !ToolsArmed(cfg, req) && run.auto == [] && run.asked == Asked(req)
    ensures run.base == Prompt(cfg, world, req, stored, Found(cfg, world, req), [])
    ensures RoundsOk(cfg.setting, run.base, run.hits, run.auto, run.rounds) && Honest(world, false, run.rounds)
    ensures Unarmed(cfg, run.rounds) && Paced(run.rounds, run.open, EffectiveSteps(cfg, req))
    ensures OpenOk(cfg.setting, run.base, run.rounds, run.open) && |run.lost| <= 1
            && (run.lost != [] ==> run.rounds != [])
    ensures EndedAs(cfg, world, req, outcome, run.end, Origin(cfg, world, req, run), run.rounds, run.open, run.lost)
  {
    hide FirstFailure, EndedAs, Prompt, EffectiveSteps, Found, OpenOk, Tally, RoundsOk, Honest, Paced, Unarmed;
  }

  lemma CrashNeeds(cfg: Config, world: World, req: Request, stored: seq<Row>, events: seq<Event>, outcome: Outcome,
                   run: Run)
    requires RunOk(cfg, world, req, stored, events, outcome, run)
    ensures outcome == Crashed ==> AsksUnarmed(cfg, world, req, stored)
  {
    hide RunOk, FirstFailure, FirstReply, AllCalls, Polls, Rows, RoundsOk, EffectiveSteps, Honest, Unarmed, Paced,
         OpenOk, Clear, UsageOf, Script, Asked, Prompt, Found, PreparePolls;
    if outcome == Crashed {
      CrashFacts(cfg, world, req, stored, events, outcome, run);
      Parts(cfg, world, req, stored, events, outcome, run);
      FirstRound(cfg, world, req, stored, events, outcome, run);
    }
  }

  lemma CrashFacts(cfg: Config, world: World, req: Request, stored: seq<Row>, events: seq<Event>, outcome: Outcome,
                   run: Run)
    requires RunOk(cfg, world, req, stored, events, outcome, run) && outcome == Crashed
    ensures FirstFailure(cfg, world, req) == None && cfg.registry.None? && run.rounds != []
  {
    hide FirstFailure, Ended, Honest, OpenOk, Paced, Unarmed, Started, Vigilant;
  }

  lemma CompletedIsArmed(cfg: Config, world: World, req: Request, stored: seq<Row>, events: seq<Event>,
                         outcome: Outcome, run: Run)
    requires RunOk(cfg, world, req, stored, events, outcome, run)
    requires outcome == Completed && cfg.registry.None? && FirstFailure(cfg, world, req) == None
    ensures !AsksUnarmed(cfg, world, req, stored)
  {
    hide RunOk, FirstFailure, FirstReply, AllCalls, Polls, Rows, RoundsOk, EffectiveSteps, Clear, Cited, LogOf, UsageOf;
    CompletedTells(cfg, world, req, stored, events, outcome, run);
    FirstRound(cfg, world, req, stored, events, outcome, run);
  }

  lemma StoppedIsNoCrash(cfg: Config, world: World, req: Request, stored: seq<Row>, events: seq<Event>,
                         outcome: Outcome, run: Run)
    requires RunOk(cfg, world, req, stored, events, outcome, run)
    requires outcome.Stopped? && cfg.registry.None? && FirstFailure(cfg, world, req) == None
    ensures !AsksUnarmed(cfg, world, req, stored)
  {
    hide RunOk, FirstFailure, AllCalls, RoundsOk, EffectiveSteps, Cited, LogOf, UsageOf, Fitted, Prompt, Found, Honest,
         Unarmed, Clear, LastEvents, Script, Opening, StoppedAsking, Asked, PreparePolls;
    Parts(cfg, world, req, stored, events, outcome, run);
    if AsksUnarmed(cfg, world, req, stored) {
      var reply := FirstReply(cfg, world, req, stored);
      var p, w := PreparePolls(cfg, req) + 1 + |reply.chunks|, |Asked(req)| + 1;
      assert run.rounds == [] && run.base + [] + [] == run.base;
      ClearBefore(world, p, w, PreparePolls(cfg, req), |Asked(req)|);
      if run.open != [] {
        StoredReplyStopsNobody(world, reply, PreparePolls(cfg, req) + 1, |Asked(req)|, run.end, outcome.code, p, w);
      }
    }
  }

  lemma ClearBefore(world: World, polls: nat, writes: nat, p: nat, w: nat)
    requires Clear(world, polls, writes)
    ensures p < polls ==> !world.aborted(p)
    ensures w < writes ==> !world.writeFails(w)
  {
  }

  /** A reply that was stored stopped nobody. */
  lemma StoredReplyStopsNobody(world: World, reply: Reply, polls: nat, writes: nat, now: Turn, code: string, p: nat,
                               w: nat)
    requires reply.ending.Finished? && Clear(world, p, w) && polls + |reply.chunks| <= p && writes < w
    ensures !StoppedAsking(world, reply, polls, writes, now, code)
  {
  }

  /** A model that asks only for what it is offered never crashes a turn. */
  lemma OfferedNeverCrashes(cfg: Config, world: World, req: Request, stored: seq<Row>)
    requires cfg.registry.Some? || AsksWhenOffered(world)
    ensures !AsksUnarmed(cfg, world, req, stored)
  {
    hide FirstFailure, EffectiveSteps, Clear, AllCalls, Fitted, Prompt, Found;
  }

  // --- A turn that crashes -------------------------------------------------------------------

  /** A model that asks for a tool nobody offered. */
  function EagerWorld(): World {
    World((n, ms, offered) => Reply([Chunk("", "", [ToolCall("c", "t", Arguments("{}", "{}"))], None)], Finished),
          (n, call) => ToolResult("", false, None), p => false, w => false, false, q => None, (hits, armed) => [],
          (text, found) => false, text => Arguments("{}", "{}"), "", (act, call) => ToolResult("", true, None), c => c)
  }

  function BareConfig(): Config {
    Config(1, 1, Setting(None, "", found => "", ""), (text, name) => text, None, false)
  }

  lemma EagerAsks(req: Request, stored: seq<Row>)
    requires EffectiveSteps(BareConfig(), req) > 0
    ensures AsksUnarmed(BareConfig(), EagerWorld(), req, stored)
  {
    hide Fitted, Prompt, Found;
    var chunks := FirstReply(BareConfig(), EagerWorld(), req, stored).chunks;
    var call := ToolCall("c", "t", Arguments("{}", "{}"));
    assert chunks == [Chunk("", "", [call], None)] && chunks[..0] == [];
    assert AllCalls(chunks) == [] + [call];
  }

  /** Running one. */
  method CrashingTurn() returns (events: seq<Event>, outcome: Outcome)
    ensures outcome == Crashed && !WellShaped(events)
  {
    hide RunOk, AsksUnarmed, PhaseOf, WellShaped;
    var memory := new ChatMemory();
    var req := Request("hi", false, true, None, true, true);
    ghost var run;
    events, outcome, run := Generate(BareConfig(), EagerWorld(), memory, req);
    EagerAsks(req, []);
    CrashIff(BareConfig(), EagerWorld(), req, [], events, outcome, run);
    TurnTells(BareConfig(), EagerWorld(), req, [], events, outcome, run);
    ClosedMeansWellShaped(events);
  }
}
