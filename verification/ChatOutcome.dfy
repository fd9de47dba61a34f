/** A turn's record is determined by the world it ran in: two records of the same request on the same
    memory agree on every stored row and every list handed to a model. */
module ChatOutcome {
  import opened Wrappers
  import opened Messages
  import opened History
  import opened Sources
  import opened ChatMemory
  import opened ChatRun
  import opened ChatReply
  import opened ChatService
  import opened ChatTranscript
  import opened ChatCrash
  import opened ChatSession

  // --- Logs ----------------------------------------------------------------------------------

  lemma {:induction false} LogAt(world: World, log: seq<Handled>, cap: int, n: nat)
    requires LogOk(log, cap) && Told(world, log) && n < |log|
    ensures LogOk(log[..n], cap) && Told(world, log[..n])
    ensures log[n].act == Decide(log[..n], log[n].index, cap, log[n].call)
    ensures log[n].result == ResultOf(world, TotalDispatches(log[..n]), log[n].act, log[n].call)
  {
    hide Decide, ResultOf, TotalDispatches;
    if n < |log| - 1 {
      var init := log[..|log| - 1];
      LogAt(world, init, cap, n);
      assert init[..n] == log[..n];
    }
  }

  /** Logs that handle the same calls handle them the same way. */
  lemma {:induction false} LogsAgree(world: World, a: seq<Handled>, b: seq<Handled>, cap: int, n: nat)
    requires LogOk(a, cap) && Told(world, a) && LogOk(b, cap) && Told(world, b) && n <= |a| && n <= |b|
    requires forall k | 0 <= k < n :: a[k].index == b[k].index && a[k].call == b[k].call
    ensures a[..n] == b[..n]
  {
    hide LogOk, Told, Decide, ResultOf, TotalDispatches;
    if n > 0 {
      LogsAgree(world, a, b, cap, n - 1);
      LogAt(world, a, cap, n - 1);
      LogAt(world, b, cap, n - 1);
      assert a[..n] == a[..n - 1] + [a[n - 1]] && b[..n] == b[..n - 1] + [b[n - 1]];
    }
  }

  // --- Rounds --------------------------------------------------------------------------------

  /** What is asked of the model, and so what it answers, follows from what came before. */
  lemma RoundAgrees(world: World, armed: bool, setting: Setting, base: seq<Message>, hits: seq<Hit>, auto: seq<Handled>,
                    before: seq<Round>, r: Round, q: Round)
    requires RoundOk(setting, base, hits, auto, before, r) && RoundOk(setting, base, hits, auto, before, q)
    requires FromModel(world, armed, |before|, r) && FromModel(world, armed, |before|, q) && r.nudged == q.nudged
    ensures r.(handled := []) == q.(handled := [])
  {
    hide Fitted, Cited, AnswerIn, AllCalls, AllThinking, Rows, LogOf;
  }

  /** The calls both answered were answered alike. */
  lemma HandledAgrees(world: World, cap: int, front: seq<Handled>, r: Round, q: Round, rest: seq<Handled>,
                      rest': seq<Handled>)
    requires AnswersInOrder(r) && AnswersInOrder(q) && r.row == q.row && |r.handled| <= |q.handled|
    requires LogOk(front + r.handled + rest, cap) && Told(world, front + r.handled + rest)
    requires LogOk(front + q.handled + rest', cap) && Told(world, front + q.handled + rest')
    ensures r.handled == q.handled[..|r.handled|]
  {
    hide LogOk, Told;
    var a, b, n := front + r.handled + rest, front + q.handled + rest', |front| + |r.handled|;
    assert forall k | 0 <= k < |front| :: a[k] == front[k] == b[k];
    assert forall k | |front| <= k < n :: a[k] == r.handled[k - |front|] && b[k] == q.handled[k - |front|];
    LogsAgree(world, a, b, cap, n);
    assert r.handled == a[..n][|front|..] && q.handled[..|r.handled|] == b[..n][|front|..];
  }

  lemma LogSplit(auto: seq<Handled>, rounds: seq<Round>, lost: seq<Handled>, m: nat) returns (rest: seq<Handled>)
    requires m < |rounds|
    ensures auto + LogOf(rounds) + lost == (auto + LogOf(rounds[..m])) + rounds[m].handled + rest
  {
    var later := LogPrefix(rounds, m + 1);
    assert rounds[..m + 1][..m] == rounds[..m];
    rest := later + lost;
  }

  /** A list of rounds as a turn may produce it in this world. */
  predicate Follows(cfg: Config, world: World, armed: bool, steps: nat, base: seq<Message>, hits: seq<Hit>,
                    auto: seq<Handled>, rounds: seq<Round>, lost: seq<Handled>) {
    && RoundsOk(cfg.setting, base, hits, auto, rounds) && Honest(world, armed, rounds)
    && LogOk(auto + LogOf(rounds) + lost, cfg.maxToolCallsPerStep) && Told(world, auto + LogOf(rounds) + lost)
    && forall n | 0 <= n < |rounds| :: rounds[n].nudged <==> n == steps
  }

  /** After equal rounds comes the same question, and the calls both answered were answered alike. */
  lemma NextAgrees(cfg: Config, world: World, armed: bool, steps: nat, base: seq<Message>, hits: seq<Hit>,
                   auto: seq<Handled>, a: seq<Round>, lost: seq<Handled>, b: seq<Round>, lost': seq<Handled>, m: nat)
    requires Follows(cfg, world, armed, steps, base, hits, auto, a, lost)
    requires Follows(cfg, world, armed, steps, base, hits, auto, b, lost')
    requires m < |a| && m < |b| && a[..m] == b[..m]
    ensures a[m].(handled := []) == b[m].(handled := [])
    ensures |a[m].handled| <= |b[m].handled| ==> a[m].handled == b[m].handled[..|a[m].handled|]
  {
    hide RoundsOk, RoundOk, LogOk, Told, LogOf, AnswersInOrder;
    RoundsPrefix(cfg.setting, base, hits, auto, a, m);
    RoundsPrefix(cfg.setting, base, hits, auto, b, m);
    RoundAgrees(world, armed, cfg.setting, base, hits, auto, a[..m], a[m], b[m]);
    if |a[m].handled| <= |b[m].handled| {
      var rest := LogSplit(auto, a, lost, m);
      var rest' := LogSplit(auto, b, lost', m);
      RoundsAnswerInOrder(cfg.setting, base, hits, auto, a);
      RoundsAnswerInOrder(cfg.setting, base, hits, auto, b);
      assert a[m] in a && b[m] in b;
      HandledAgrees(world, cfg.maxToolCallsPerStep, auto + LogOf(a[..m]), a[m], b[m], rest, rest');
    }
  }

  /** Rounds that were answered in full agree. */
  lemma {:induction false} CompleteRoundsAgree(cfg: Config, world: World, armed: bool, steps: nat,
                                               base: seq<Message>, hits: seq<Hit>, auto: seq<Handled>,
                                               a: seq<Round>, lost: seq<Handled>,
                                               b: seq<Round>, lost': seq<Handled>, n: nat)
    requires Follows(cfg, world, armed, steps, base, hits, auto, a, lost)
    requires Follows(cfg, world, armed, steps, base, hits, auto, b, lost')
    requires n <= |a| && n <= |b| && forall k | 0 <= k < n :: Complete(a[k]) && Complete(b[k])
    ensures a[..n] == b[..n]
  {
    hide Follows;
    if n > 0 {
      CompleteRoundsAgree(cfg, world, armed, steps, base, hits, auto, a, lost, b, lost', n - 1);
      NextAgrees(cfg, world, armed, steps, base, hits, auto, a, lost, b, lost', n - 1);
      assert a[..n] == a[..n - 1] + [a[n - 1]] && b[..n] == b[..n - 1] + [b[n - 1]];
      SameRow(a[n - 1], b[n - 1]);
      assert Complete(a[n - 1]) && Complete(b[n - 1]);
      assert b[n - 1].handled[..|b[n - 1].handled|] == b[n - 1].handled;
    }
  }

  lemma SameRow(r: Round, q: Round)
    requires r.(handled := []) == q.(handled := [])
    ensures r.row == q.row && r.handed == q.handed && r.nudged == q.nudged && (r.handled == q.handled ==> r == q)
  {
    assert r == r.(handled := []).(handled := r.handled) && q == q.(handled := []).(handled := q.handled);
  }

  lemma {:induction false} CountsGrow(world: World, armed: bool, rounds: seq<Round>, n: nat)
    requires n <= |rounds|
    ensures Polls(world, armed, rounds[..n]) <= Polls(world, armed, rounds) && |Rows(rounds[..n])| <= |Rows(rounds)|
  {
    hide PollsIn, Script, RoundEvents;
    if n == |rounds| {
      assert rounds[..n] == rounds;
    } else {
      var m := |rounds| - 1;
      CountsGrow(world, armed, rounds[..m], n);
      assert rounds[..m][..n] == rounds[..n];
      SnocCounts(world, armed, rounds[..m], rounds[m]);
      assert rounds == rounds[..m] + [rounds[m]];
    }
  }

  // --- Where a turn ends ---------------------------------------------------------------------

  /** What two records of the same turn are compared on. */
  predicate Recorded(cfg: Config, world: World, req: Request, outcome: Outcome, run: Run) {
    && Follows(cfg, world, ToolsArmed(cfg, req), EffectiveSteps(cfg, req), run.base, run.hits, run.auto, run.rounds,
               run.lost)
    && OpenOk(cfg.setting, run.base, run.rounds, run.open) && Paced(run.rounds, run.open, EffectiveSteps(cfg, req))
    && Unarmed(cfg, run.rounds) && LostNext(run.rounds, run.lost)
    && EndedAs(cfg, world, req, outcome, run.end, Origin(cfg, world, req, run), run.rounds, run.open, run.lost)
  }

  /** What could not be stored is the result of the next call of the last round. */
  predicate LostNext(rounds: seq<Round>, lost: seq<Handled>) {
    && |lost| <= 1
    && (lost != [] ==>
          && rounds != [] && !Complete(rounds[|rounds| - 1])
          && lost[0].index == |rounds[|rounds| - 1].handled| < |rounds[|rounds| - 1].row.toolCalls|
          && lost[0].call == rounds[|rounds| - 1].row.toolCalls[lost[0].index])
  }

  lemma RunIsRecorded(cfg: Config, world: World, req: Request, stored: seq<Row>, events: seq<Event>, outcome: Outcome,
                      run: Run)
    requires RunOk(cfg, world, req, stored, events, outcome, run) && FirstFailure(cfg, world, req) == None
    ensures Recorded(cfg, world, req, outcome, run) && Started(cfg, world, req, stored, run)
    ensures Clear(world, PreparePolls(cfg, req) + Polls(world, ToolsArmed(cfg, req), run.rounds),
                  |run.asked| + |Rows(run.rounds)|)
  {
    hide RoundsOk, LogOk, Told, Honest, Prompt, Fitted, Rows, OpenOk, Polls, CompletedOk, CrashedOk, StoppedOk, Started,
         FirstFailure, TotalDispatches, LogOf, EffectiveSteps, ToolsArmed, EndedAs;
    RunIsClear(cfg, world, req, stored, events, outcome, run);
  }

  /** A round left incomplete is the last. */
  lemma IncompleteIsLast(cfg: Config, base: seq<Message>, hits: seq<Hit>, auto: seq<Handled>, rounds: seq<Round>,
                         m: nat)
    requires RoundsOk(cfg.setting, base, hits, auto, rounds) && m < |rounds| && !Complete(rounds[m])
    ensures |rounds| == m + 1
  {
    hide RoundOk, Complete;
    var init := rounds[..|rounds| - 1];
    assert forall k | 0 <= k < |init| :: init[k] in init && Complete(init[k]);
  }

  /** Of two records of a turn neither answered fewer calls of a round than the other. */
  lemma NoFewerCalls(cfg: Config, world: World, req: Request, outcome: Outcome, run: Run, outcome': Outcome, run': Run,
                     m: nat)
    requires Recorded(cfg, world, req, outcome, run) && Recorded(cfg, world, req, outcome', run')
    requires run.base == run'.base && run.hits == run'.hits && run.auto == run'.auto && run.asked == run'.asked
    requires Clear(world, PreparePolls(cfg, req) + Polls(world, ToolsArmed(cfg, req), run'.rounds),
                   |run'.asked| + |Rows(run'.rounds)|)
    requires m < |run.rounds| && m < |run'.rounds| && run.rounds[..m] == run'.rounds[..m]
    ensures |run.rounds[m].handled| >= |run'.rounds[m].handled|
  {
    hide *;
    var armed := ToolsArmed(cfg, req);
    var r, q := run.rounds[m], run'.rounds[m];
    FollowsOf(cfg, world, req, outcome, run);
    FollowsOf(cfg, world, req, outcome', run');
    NextAgrees(cfg, world, armed, EffectiveSteps(cfg, req), run.base, run.hits, run.auto, run.rounds, run.lost,
               run'.rounds, run'.lost, m);
    SameRow(r, q);
    if |r.handled| < |q.handled| {
      AnsweredWithin(cfg, run'.base, run'.hits, run'.auto, run'.rounds, m);
      NotComplete(r);
      IncompleteIsLast(cfg, run.base, run.hits, run.auto, run.rounds, m);
      UpToRound(world, armed, run.rounds, m);
      UpToRound(world, armed, run'.rounds, m);
      CallCounts(world, armed, m, r, q);
      var p, w := PreparePolls(cfg, req) + Polls(world, armed, run.rounds), |run.asked| + |Rows(run.rounds)|;
      IncompleteEnd(cfg, world, req, outcome, run, p, w);
      ClearBefore(world, PreparePolls(cfg, req) + Polls(world, armed, run'.rounds), |run'.asked| + |Rows(run'.rounds)|,
                  p, w);
      NothingAnswered(cfg, run'.rounds, m);
    }
  }

  lemma NotComplete(r: Round)
    ensures Complete(r) <==> |r.handled| == |r.row.toolCalls|
  {
  }

  lemma NothingAnswered(cfg: Config, rounds: seq<Round>, m: nat)
    requires Unarmed(cfg, rounds) && m < |rounds|
    ensures cfg.registry.None? ==> rounds[m].handled == []
  {
  }

  lemma FollowsOf(cfg: Config, world: World, req: Request, outcome: Outcome, run: Run)
    requires Recorded(cfg, world, req, outcome, run)
    ensures Follows(cfg, world, ToolsArmed(cfg, req), EffectiveSteps(cfg, req), run.base, run.hits, run.auto,
                    run.rounds, run.lost)
    ensures RoundsOk(cfg.setting, run.base, run.hits, run.auto, run.rounds) && Unarmed(cfg, run.rounds)
  {
    hide RoundsOk, Unarmed, OpenOk, Paced, CompletedOk, CrashedOk, StoppedOk, Honest, LogOk, Told;
  }

  /** Only an interruption or a missing registry leaves the last round incomplete. */
  lemma IncompleteEnd(cfg: Config, world: World, req: Request, outcome: Outcome, run: Run, p: nat, w: nat)
    requires Recorded(cfg, world, req, outcome, run)
    requires run.rounds != [] && !Complete(run.rounds[|run.rounds| - 1])
    requires p == PreparePolls(cfg, req) + Polls(world, ToolsArmed(cfg, req), run.rounds)
             && w == |run.asked| + |Rows(run.rounds)|
    ensures cfg.registry.None? || world.aborted(p) || world.writeFails(w)
  {
    hide Follows, Paced, Complete, Clear, Polls, Rows, ToolsArmed, EffectiveSteps, Vigilant, Unarmed, Unfinished,
         LastEvents, Script, Opening, LostNext, Cited, LogOf;
  }

  lemma AnsweredWithin(cfg: Config, base: seq<Message>, hits: seq<Hit>, auto: seq<Handled>, rounds: seq<Round>, m: nat)
    requires RoundsOk(cfg.setting, base, hits, auto, rounds) && m < |rounds|
    ensures |rounds[m].handled| <= |rounds[m].row.toolCalls|
  {
    hide RoundsOk;
    RoundsAnswerInOrder(cfg.setting, base, hits, auto, rounds);
    assert rounds[m] in rounds;
  }

  lemma UpToRound(world: World, armed: bool, rounds: seq<Round>, m: nat)
    requires m < |rounds|
    ensures var p, w := Polls(world, armed, rounds[..m]) + PollsIn(world, armed, m, rounds[m]),
            |Rows(rounds[..m])| + 1 + |rounds[m].handled|;
            && (if |rounds| == m + 1 then Polls(world, armed, rounds) == p else Polls(world, armed, rounds) >= p)
            && (if |rounds| == m + 1 then |Rows(rounds)| == w else |Rows(rounds)| >= w)
  {
    hide PollsIn, Script, RoundEvents;
    SnocCounts(world, armed, rounds[..m], rounds[m]);
    assert rounds[..m + 1] == rounds[..m] + [rounds[m]];
    CountsGrow(world, armed, rounds, m + 1);
    assert |rounds| == m + 1 ==> rounds[..m + 1] == rounds;
  }

  lemma CallCounts(world: World, armed: bool, m: nat, r: Round, q: Round)
    requires r.handed == q.handed && r.nudged == q.nudged
    ensures PollsIn(world, armed, m, q) - PollsIn(world, armed, m, r) == |q.handled| - |r.handled|
  {
  }

  lemma EarlierAsked(cfg: Config, base: seq<Message>, hits: seq<Hit>, auto: seq<Handled>, rounds: seq<Round>, m: nat)
    requires RoundsOk(cfg.setting, base, hits, auto, rounds) && m < |rounds|
    ensures forall k | 0 <= k < m :: Complete(rounds[k]) && rounds[k].row.toolCalls != []
  {
    hide RoundOk, Complete;
    var init := rounds[..|rounds| - 1];
    assert forall k | 0 <= k < |init| :: init[k] in init && init[k] == rounds[k];
  }

  /** A turn whose rounds were all answered in full and asked for more stopped before its next round, or
      in a model call that stored nothing. */
  lemma CompleteEnd(cfg: Config, world: World, req: Request, outcome: Outcome, run: Run, p: nat, w: nat)
    requires Recorded(cfg, world, req, outcome, run)
    requires run.rounds != [] ==>
               Complete(run.rounds[|run.rounds| - 1]) && run.rounds[|run.rounds| - 1].row.toolCalls != []
    requires p == PreparePolls(cfg, req) + Polls(world, ToolsArmed(cfg, req), run.rounds)
             && w == |run.asked| + |Rows(run.rounds)|
    ensures outcome.Stopped? && run.lost == []
    ensures run.open == [] ==>
              && world.aborted(p) && outcome.code == ABORTED && |run.rounds| < EffectiveSteps(cfg, req)
              && run.end.polls == p + 1
    ensures run.open != [] ==>
              var o := run.open[0];
              && |run.open| == 1 && (o.nudged <==> |run.rounds| == EffectiveSteps(cfg, req))
              && o.handed == cfg.setting.Handed(|run.rounds|, run.base, Rows(run.rounds), o.nudged)
              && StoppedAsking(world, world.llm(|run.rounds|, o.handed, ToolsArmed(cfg, req) && !o.nudged),
                               p + (if o.nudged then 0 else 1), w, run.end, outcome.code)
  {
    hide Follows, Complete, Clear, Polls, Rows, ToolsArmed, EffectiveSteps, Vigilant, Unarmed, Unfinished, Fitted,
         StoppedAsking, LastEvents, Script, Opening, Cited, LogOf;
  }

  lemma ModelAnswered(world: World, armed: bool, rounds: seq<Round>, m: nat)
    requires Honest(world, armed, rounds) && m < |rounds|
    ensures var reply := world.llm(m, rounds[m].handed, armed && !rounds[m].nudged);
            && reply.ending.Finished?
            && PollsIn(world, armed, m, rounds[m])
               == (if rounds[m].nudged then 0 else 1) + |reply.chunks| + |rounds[m].handled|
  {
    hide AnswerIn, AllCalls, AllThinking;
    assert FromModel(world, armed, m, rounds[m]);
  }

  lemma HandedAt(cfg: Config, base: seq<Message>, hits: seq<Hit>, auto: seq<Handled>, rounds: seq<Round>, m: nat)
    requires RoundsOk(cfg.setting, base, hits, auto, rounds) && m < |rounds|
    ensures rounds[m].handed == cfg.setting.Handed(m, base, Rows(rounds[..m]), rounds[m].nudged)
  {
    hide RoundsOk, Fitted, Rows, Cited;
    RoundsPrefix(cfg.setting, base, hits, auto, rounds, m);
  }

  lemma HonestOf(cfg: Config, world: World, armed: bool, steps: nat, base: seq<Message>, hits: seq<Hit>,
                 auto: seq<Handled>, rounds: seq<Round>, lost: seq<Handled>)
    requires Follows(cfg, world, armed, steps, base, hits, auto, rounds, lost)
    ensures Honest(world, armed, rounds) && forall n | 0 <= n < |rounds| :: rounds[n].nudged <==> n == steps
  {
  }

  /** Of two records of a turn neither has fewer rounds. */
  lemma NoFewerRounds(cfg: Config, world: World, req: Request, outcome: Outcome, run: Run, outcome': Outcome, run': Run)
    requires Recorded(cfg, world, req, outcome, run) && Recorded(cfg, world, req, outcome', run')
    requires run.base == run'.base && run.hits == run'.hits && run.auto == run'.auto && run.asked == run'.asked
    requires Clear(world, PreparePolls(cfg, req) + Polls(world, ToolsArmed(cfg, req), run'.rounds),
                   |run'.asked| + |Rows(run'.rounds)|)
    requires |run.rounds| <= |run'.rounds| && run.rounds == run'.rounds[..|run.rounds|]
    ensures |run.rounds| == |run'.rounds|
  {
    hide *;
    var m, armed, steps := |run.rounds|, ToolsArmed(cfg, req), EffectiveSteps(cfg, req);
    if m < |run'.rounds| {
      FollowsOf(cfg, world, req, outcome', run');
      HonestOf(cfg, world, armed, steps, run'.base, run'.hits, run'.auto, run'.rounds, run'.lost);
      EarlierAsked(cfg, run'.base, run'.hits, run'.auto, run'.rounds, m);
      var p, w := PreparePolls(cfg, req) + Polls(world, armed, run.rounds), |run.asked| + |Rows(run.rounds)|;
      var p', w' := PreparePolls(cfg, req) + Polls(world, armed, run'.rounds), |run'.asked| + |Rows(run'.rounds)|;
      CompleteEnd(cfg, world, req, outcome, run, p, w);
      UpToRound(world, armed, run'.rounds, m);
      ModelAnswered(world, armed, run'.rounds, m);
      HandedAt(cfg, run'.base, run'.hits, run'.auto, run'.rounds, m);
      ClearBefore(world, p', w', p, w);
      if run.open != [] {
        StoredReplyStopsNobody(world, world.llm(m, run.open[0].handed, armed && !run.open[0].nudged),
                               p + (if run.open[0].nudged then 0 else 1), w, run.end, outcome.code, p', w');
      }
    }
  }

  lemma RoundsAgree(cfg: Config, world: World, req: Request, outcome: Outcome, run: Run, outcome': Outcome, run': Run)
    requires Recorded(cfg, world, req, outcome, run) && Recorded(cfg, world, req, outcome', run')
    requires run.base == run'.base && run.hits == run'.hits && run.auto == run'.auto && run.asked == run'.asked
    requires Clear(world, PreparePolls(cfg, req) + Polls(world, ToolsArmed(cfg, req), run.rounds),
                   |run.asked| + |Rows(run.rounds)|)
    requires Clear(world, PreparePolls(cfg, req) + Polls(world, ToolsArmed(cfg, req), run'.rounds),
                   |run'.asked| + |Rows(run'.rounds)|)
    requires |run.rounds| <= |run'.rounds|
    ensures run.rounds == run'.rounds
  {
    hide *;
    var m := |run.rounds| - 1;
    if m >= 0 {
      FollowsOf(cfg, world, req, outcome, run);
      FollowsOf(cfg, world, req, outcome', run');
      EarlierAsked(cfg, run.base, run.hits, run.auto, run.rounds, m);
      EarlierAsked(cfg, run'.base, run'.hits, run'.auto, run'.rounds, m);
      CompleteRoundsAgree(cfg, world, ToolsArmed(cfg, req), EffectiveSteps(cfg, req), run.base, run.hits, run.auto,
                          run.rounds, run.lost, run'.rounds, run'.lost, m);
      NextAgrees(cfg, world, ToolsArmed(cfg, req), EffectiveSteps(cfg, req), run.base, run.hits, run.auto,
                 run.rounds, run.lost, run'.rounds, run'.lost, m);
      NoFewerCalls(cfg, world, req, outcome, run, outcome', run', m);
      NoFewerCalls(cfg, world, req, outcome', run', outcome, run, m);
      assert run'.rounds[m].handled[..|run'.rounds[m].handled|] == run'.rounds[m].handled;
      SameRow(run.rounds[m], run'.rounds[m]);
      assert run'.rounds[..m + 1] == run'.rounds[..m] + [run'.rounds[m]]
             && run.rounds == run.rounds[..m] + [run.rounds[m]];
    }
    assert run.rounds == run'.rounds[..|run.rounds|];
    NoFewerRounds(cfg, world, req, outcome, run, outcome', run');
    assert run'.rounds[..|run'.rounds|] == run'.rounds;
  }

  // --- The same end --------------------------------------------------------------------------

  lemma AskingPolledPast(world: World, reply: Reply, polls: nat, writes: nat, now: Turn, code: string, p: nat)
    requires StoppedAsking(world, reply, polls, writes, now, code) && p < polls
    ensures !world.aborted(p)
  {
  }

  lemma AskingCode(world: World, reply: Reply, polls: nat, writes: nat, now: Turn, code: string, now': Turn,
                   code': string)
    requires StoppedAsking(world, reply, polls, writes, now, code)
             && StoppedAsking(world, reply, polls, writes, now', code')
    ensures code == code' && now.polls == now'.polls && now.writes == now'.writes
  {
  }

  /** Two records with the same rounds, all answered, ended in the same way. */
  lemma AnsweredEndsAgree(cfg: Config, world: World, req: Request, outcome: Outcome, run: Run, outcome': Outcome,
                          run': Run)
    requires Recorded(cfg, world, req, outcome, run) && Recorded(cfg, world, req, outcome', run')
    requires run.base == run'.base && run.asked == run'.asked && run.rounds == run'.rounds
    requires run.rounds != [] ==>
               Complete(run.rounds[|run.rounds| - 1]) && run.rounds[|run.rounds| - 1].row.toolCalls != []
    ensures outcome == outcome' && run.open == run'.open && run.lost == [] == run'.lost
    ensures run.open != [] ==> run.end.polls == run'.end.polls && run.end.writes == run'.end.writes
  {
    hide *;
    var p, w := PreparePolls(cfg, req) + Polls(world, ToolsArmed(cfg, req), run.rounds),
        |run.asked| + |Rows(run.rounds)|;
    CompleteEnd(cfg, world, req, outcome, run, p, w);
    CompleteEnd(cfg, world, req, outcome', run', p, w);
    if run.open != [] && run'.open != [] {
      assert run.open == [Unstored(run.open[0].handed, run.open[0].nudged)];
      assert run'.open == [Unstored(run'.open[0].handed, run'.open[0].nudged)];
      AskingCode(world, world.llm(|run.rounds|, run.open[0].handed, ToolsArmed(cfg, req) && !run.open[0].nudged),
                 p + (if run.open[0].nudged then 0 else 1), w, run.end, outcome.code, run'.end, outcome'.code);
    } else if run.open != [] {
      AskingPolledPast(world, world.llm(|run.rounds|, run.open[0].handed, ToolsArmed(cfg, req) && !run.open[0].nudged),
                       p + 1, w, run.end, outcome.code, p);
    } else if run'.open != [] {
      AskingPolledPast(world, world.llm(|run.rounds|, run'.open[0].handed, ToolsArmed(cfg, req)
                                        && !run'.open[0].nudged),
                       p + 1, w, run'.end, outcome'.code, p);
    }
  }

  /** Two records with the same rounds, the last unanswered or the answer, ended in the same way. */
  lemma OtherEndsAgree(cfg: Config, world: World, req: Request, outcome: Outcome, run: Run, outcome': Outcome,
                       run': Run)
    requires Recorded(cfg, world, req, outcome, run) && Recorded(cfg, world, req, outcome', run')
    requires run.asked == run'.asked && run.rounds == run'.rounds && run.rounds != []
    requires !Complete(run.rounds[|run.rounds| - 1]) || run.rounds[|run.rounds| - 1].row.toolCalls == []
    ensures outcome == outcome' && run.open == [] == run'.open && |run.lost| == |run'.lost|
  {
    hide Follows, Complete, Clear, Polls, Rows, ToolsArmed, EffectiveSteps, Vigilant, Unarmed, Fitted, StoppedAsking,
         Cited, Paced, LastEvents, Script;
  }

  /** The same next call got the same result. */
  lemma LostAgree(cfg: Config, world: World, req: Request, outcome: Outcome, run: Run, outcome': Outcome, run': Run)
    requires Recorded(cfg, world, req, outcome, run) && Recorded(cfg, world, req, outcome', run')
    requires run.auto == run'.auto && run.rounds == run'.rounds && |run.lost| == |run'.lost|
    ensures run.lost == run'.lost
  {
    hide RoundsOk, Honest, OpenOk, Paced, Unarmed, EndedAs, LogOk, Told, LogOf, ToolsArmed, EffectiveSteps;
    if run.lost != [] {
      var a, b, n := run.Log(), run'.Log(), |run.auto + LogOf(run.rounds)|;
      assert a[n] == run.lost[0] && b[n] == run'.lost[0];
      assert forall k | 0 <= k < n :: a[k] == (run.auto + LogOf(run.rounds))[k] == b[k];
      LogsAgree(world, a, b, cfg.maxToolCallsPerStep, n + 1);
      assert a[..n + 1][n] == b[..n + 1][n];
      assert run.lost == [run.lost[0]] && run'.lost == [run'.lost[0]];
    }
  }

  /** What a turn shows, stores, hands to the model and how it ends is decided by the world alone. */
  lemma TurnIsDetermined(cfg: Config, world: World, req: Request, stored: seq<Row>, events: seq<Event>,
                         outcome: Outcome, run: Run, events': seq<Event>, outcome': Outcome, run': Run)
    requires RunOk(cfg, world, req, stored, events, outcome, run)
             && RunOk(cfg, world, req, stored, events', outcome', run')
    ensures outcome == outcome' && run.asked == run'.asked && run.rounds == run'.rounds && run.open == run'.open
    ensures After(stored, run) == After(stored, run') && HandedLists(run) == HandedLists(run')
    ensures events == events'
  {
    hide *;
    EventsAreTranscript(cfg, world, req, stored, events, outcome, run);
    EventsAreTranscript(cfg, world, req, stored, events', outcome', run');
    if FirstFailure(cfg, world, req).Some? {
      FailuresAgree(cfg, world, req, stored, events, outcome, run);
      FailuresAgree(cfg, world, req, stored, events', outcome', run');
    } else {
      RunIsRecorded(cfg, world, req, stored, events, outcome, run);
      RunIsRecorded(cfg, world, req, stored, events', outcome', run');
      StartsAgree(cfg, world, req, stored, events, outcome, run, events', outcome', run');
      if |run.rounds| <= |run'.rounds| {
        RoundsAgree(cfg, world, req, outcome, run, outcome', run');
      } else {
        RoundsAgree(cfg, world, req, outcome', run', outcome, run);
      }
      if run.rounds != []
         && (!Complete(run.rounds[|run.rounds| - 1]) || run.rounds[|run.rounds| - 1].row.toolCalls == []) {
        OtherEndsAgree(cfg, world, req, outcome, run, outcome', run');
      } else {
        AnsweredEndsAgree(cfg, world, req, outcome, run, outcome', run');
      }
      LostAgree(cfg, world, req, outcome, run, outcome', run');
      TranscriptsAgree(cfg, world, req, outcome, run, run');
    }
    ListsAgree(stored, run, run');
  }

  /** Equal records call for equal events. */
  lemma TranscriptsAgree(cfg: Config, world: World, req: Request, outcome: Outcome, run: Run, run': Run)
    requires run.base == run'.base && run.hits == run'.hits && run.auto == run'.auto && run.asked == run'.asked
    requires run.rounds == run'.rounds && run.open == run'.open && run.lost == run'.lost
    requires run.open != [] ==> run.end.polls == run'.end.polls && run.end.writes == run'.end.writes
    ensures Transcript(cfg, world, req, outcome, run) == Transcript(cfg, world, req, outcome, run')
  {
    hide FirstFailure, Opening, Script, Cited, UsageOf, LogOf, Shown, ReplyEvents, CallsEvents, NudgeEvents, AskedAfter,
         Rows, ToolsArmed;
  }

  lemma ListsAgree(stored: seq<Row>, run: Run, run': Run)
    requires run.asked == run'.asked && run.rounds == run'.rounds && run.open == run'.open
    ensures After(stored, run) == After(stored, run') && HandedLists(run) == HandedLists(run')
  {
  }

  lemma FailuresAgree(cfg: Config, world: World, req: Request, stored: seq<Row>, events: seq<Event>, outcome: Outcome,
                      run: Run)
    requires RunOk(cfg, world, req, stored, events, outcome, run) && FirstFailure(cfg, world, req).Some?
    ensures outcome == Stopped(FirstFailure(cfg, world, req).value.code)
    ensures run.asked == [] && run.rounds == [] && run.open == []
    ensures events == FirstFailure(cfg, world, req).value.shown + [ErrorEvent(outcome.code)]
  {
    hide Ended, Honest, OpenOk, Paced, Unarmed, FirstFailure;
  }

  lemma StartsAgree(cfg: Config, world: World, req: Request, stored: seq<Row>, events: seq<Event>, outcome: Outcome,
                    run: Run, events': seq<Event>, outcome': Outcome, run': Run)
    requires RunOk(cfg, world, req, stored, events, outcome, run)
             && RunOk(cfg, world, req, stored, events', outcome', run')
    requires FirstFailure(cfg, world, req) == None
    ensures run.base == run'.base && run.hits == run'.hits && run.auto == run'.auto && run.asked == run'.asked
  {
    hide Ended, Honest, OpenOk, Paced, Unarmed, FirstFailure, CompletedOk, CrashedOk, StoppedOk, Prompt, AutoSearches,
         Found, ToolsArmed;
    AutoResult(cfg, world, req, stored, events, outcome, run);
    AutoResult(cfg, world, req, stored, events', outcome', run');
    assert run.hits == run'.hits;
    assert |run.auto| == 1 ==> run.auto == [run.auto[0]];
    assert |run'.auto| == 1 ==> run'.auto == [run'.auto[0]];
    assert run.auto == run'.auto;
  }

  lemma AutoResult(cfg: Config, world: World, req: Request, stored: seq<Row>, events: seq<Event>, outcome: Outcome,
                   run: Run)
    requires RunOk(cfg, world, req, stored, events, outcome, run) && FirstFailure(cfg, world, req) == None
    ensures |run.auto| == 1 ==>
              var call := AutoCall(world, req.userText);
              run.auto[0] == Handled(0, call, Dispatched, world.tool(0, call))
  {
    hide RoundsOk, LogOk, Honest, OpenOk, Paced, Unarmed, FirstFailure, CompletedOk, CrashedOk, StoppedOk, Prompt,
         AutoSearches, Found, ToolsArmed, LogOf, Told, EndedAs;
    if |run.auto| == 1 {
      FirstResult(world, run.Log());
    }
  }

  lemma {:induction false} FirstResult(world: World, log: seq<Handled>)
    requires Told(world, log) && log != []
    ensures log[0].result == ResultOf(world, 0, log[0].act, log[0].call)
  {
    if |log| == 1 {
      assert log[..0] == [];
    } else {
      FirstResult(world, log[..|log| - 1]);
    }
  }

  /** So a conversation shows the same streams, leaves the same memory and hands out the same lists,
      whoever keeps its record. */
  lemma {:induction false} ConversationIsDetermined(ops: seq<Op>, records: seq<Record>, records': seq<Record>)
    requires Conversation(ops, records) && Conversation(ops, records')
    ensures LeftBy(records) == LeftBy(records') && AllHanded(records) == AllHanded(records')
    ensures forall i | 0 <= i < |ops| :: records[i].events == records'[i].events
  {
    hide Conversation, Served, Left, HandedLists;
    SameLength(ops, records);
    SameLength(ops, records');
    if ops != [] {
      var m := |ops| - 1;
      LastServed(ops, records, m);
      LastServed(ops, records', m);
      ConversationIsDetermined(ops[..m], records[..m], records'[..m]);
      ServedAgree(ops[m], records[m], records'[m]);
      forall i | 0 <= i < |ops| ensures records[i].events == records'[i].events {
        if i < m {
          assert records[i] == records[..m][i] && records'[i] == records'[..m][i] && i < |ops[..m]|;
        }
      }
    }
  }

  lemma SameLength(ops: seq<Op>, records: seq<Record>)
    requires Conversation(ops, records)
    ensures |records| == |ops|
  {
  }

  lemma LastServed(ops: seq<Op>, records: seq<Record>, m: nat)
    requires Conversation(ops, records) && m < |ops|
    ensures Conversation(ops[..m], records[..m])
    ensures records[m].before == LeftBy(records[..m]) && Served(ops[m], records[m])
  {
    hide Served, Left;
    EarlierConversation(ops, records, m);
  }

  lemma ServedAgree(op: Op, record: Record, record': Record)
    requires Served(op, record) && Served(op, record') && record.before == record'.before
    ensures Left(record) == Left(record') && HandedLists(record.run) == HandedLists(record'.run)
    ensures record.events == record'.events
  {
    hide RunOk, After, HandedLists;
    var req := RequestOf(op, record.stored);
    if req.None? {
      ListsAgree(record.stored, record.run, record'.run);
    } else {
      TurnIsDetermined(op.cfg, op.world, req.value, record.stored, record.events, record.outcome, record.run,
                       record'.events, record'.outcome, record'.run);
    }
  }
}
