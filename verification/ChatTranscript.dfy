/** What the reader of a turn was shown. Its events are decided by the world and the record; here is
    what they say about the answer, the retrieval and the tool calls. */
module ChatTranscript {
  import opened Wrappers
  import opened Messages
  import opened Sources
  import opened Text
  import opened ChatMemory
  import opened ChatRun
  import opened ChatReply
  import opened ChatService
  import TF = ThinkFilter

  /** The last retrieval a stream reported. */
  function HitsOf(es: seq<Event>): Option<seq<Hit>> {
    if es == [] then None
    else if es[|es| - 1].RetrievalEvent? then Some(es[|es| - 1].hits)
    else HitsOf(es[..|es| - 1])
  }

  lemma {:induction false} StreamsAppend(a: seq<Event>, b: seq<Event>)
    requires PhaseOf(a) == Idle
    ensures PhaseOf(a + b) == PhaseOf(b)
    ensures CallsOf(a + b) == CallsOf(a) + CallsOf(b) && ResultsOf(a + b) == ResultsOf(a) + ResultsOf(b)
    ensures HitsOf(a + b) == if HitsOf(b).Some? then HitsOf(b) else HitsOf(a)
  {
    if b == [] {
      assert a + b == a;
    } else {
      assert (a + b)[..|a + b| - 1] == a + b[..|b| - 1];
      StreamsAppend(a, b[..|b| - 1]);
    }
  }

  /** An open stream that shows this answer text, the calls of this log and this retrieval. */
  predicate Tells(es: seq<Event>, text: string, log: seq<Handled>, hits: Option<seq<Hit>>) {
    && PhaseOf(es) == Idle && TokenText(es) == text && HitsOf(es) == hits
    && CallsOf(es) == CallsIn(log) && ResultsOf(es) == ResultsIn(log)
  }

  lemma TellsAppend(a: seq<Event>, text: string, log: seq<Handled>, hits: Option<seq<Hit>>,
                    b: seq<Event>, text': string, log': seq<Handled>)
    requires Tells(a, text, log, hits) && Tells(b, text', log', None)
    ensures Tells(a + b, text + text', log + log', hits)
  {
    hide TokenText, PhaseOf, CallsOf, ResultsOf, HitsOf;
    StreamsAppend(a, b);
    TokenTextAppend(a, b);
    assert CallsIn(log + log') == CallsIn(log) + CallsIn(log');
    assert ResultsIn(log + log') == ResultsIn(log) + ResultsIn(log');
  }

  lemma {:induction false} PlainTells(es: seq<Event>)
    requires Plain(es)
    ensures Tells(es, TokenText(es), [], None)
  {
    if es != [] {
      var init, last := es[..|es| - 1], es[|es| - 1];
      assert last in es && forall e | e in init :: e in es;
      PlainTells(init);
    }
  }

  lemma CallTells(thought: string, h: Handled)
    ensures Tells(CallEvents(thought, h), "", [h], None)
  {
    var a, b, c := ThoughtEvent(thought), ToolCallEvent(h.call),
        ToolResultEvent(h.call, h.result.content, h.result.isError);
    OneEventTells(a);
    assert [a, b][..1] == [a] && [a, b, c][..2] == [a, b];
    assert CallsOf([a, b]) == [h.call] && ResultsOf([a, b]) == [] && PhaseOf([a, b]) == Awaiting(h.call);
    assert CallsIn([h]) == [h.call] && ResultsIn([h]) == [c];
  }

  lemma {:induction false} CallsTell(hs: seq<Handled>)
    ensures Tells(CallsEvents(hs), "", hs, None)
  {
    hide Tells, CallEvents;
    if hs == [] {
      NothingTells();
    } else {
      var init, last := hs[..|hs| - 1], hs[|hs| - 1];
      CallsTell(init);
      CallTells(Running(last.call), last);
      TellsAppend(CallsEvents(init), "", init, None, CallEvents(Running(last.call), last), "", [last]);
      assert hs == init + [last] && "" + "" == "";
    }
  }

  lemma NothingTells()
    ensures Tells([], "", [], None)
  {
  }

  lemma OneEventTells(e: Event)
    ensures e.ThoughtEvent? ==> Tells([e], "", [], None)
    ensures e.TokenEvent? ==> Tells([e], e.delta, [], None)
    ensures e.RetrievalEvent? ==> Tells([e], "", [], Some(e.hits))
  {
    assert [e][..0] == [];
  }

  lemma FallbackTells(r: Round)
    ensures Tells(FallbackEvents(r), if BlankAnswer(r) then r.row.content else "", [], None)
  {
    hide Tells, Blank;
    NothingTells();
    OneEventTells(TokenEvent(r.row.content));
  }

  lemma NudgeTells(nudged: bool)
    ensures Tells(NudgeEvents(nudged), "", [], None)
  {
    hide Tells;
    NothingTells();
    OneEventTells(ThoughtEvent(LIMIT_REACHED));
  }

  lemma RoundTells(world: World, offerTools: bool, n: nat, r: Round)
    requires FromModel(world, offerTools, n, r)
    ensures Tells(RoundEvents(world, offerTools, n, r), SpokenIn(r), r.handled, None)
  {
    hide Tells, ReplyEvents, FallbackEvents, NudgeEvents, CallsEvents, AnswerIn, AllThinking, AllCalls, BlankAnswer;
    var chunks := ReplyTo(world, offerTools, n, r.handed, r.nudged).chunks;
    var nudge, reply, fallback := NudgeEvents(r.nudged), ReplyEvents(world.fold, chunks), FallbackEvents(r);
    var more := if BlankAnswer(r) then r.row.content else "";
    NudgeTells(r.nudged);
    ReplyText(world.fold, chunks);
    PlainTells(reply);
    FallbackTells(r);
    CallsTell(r.handled);
    TellsAppend(nudge, "", [], None, reply, r.streamed, []);
    TellsAppend(nudge + reply, "" + r.streamed, [] + [], None, fallback, more, []);
    TellsAppend(nudge + reply + fallback, "" + r.streamed + more, [] + [] + [], None, CallsEvents(r.handled), "",
                r.handled);
    assert "" + r.streamed + more + "" == SpokenIn(r) && [] + [] + [] + r.handled == r.handled;
  }

  /** What is shown of stored rounds: what they spoke, and the calls they handled. */
  lemma {:induction false} ScriptTells(world: World, offerTools: bool, rounds: seq<Round>)
    requires Honest(world, offerTools, rounds)
    ensures Tells(Script(world, offerTools, rounds), Spoken(rounds), LogOf(rounds), None)
  {
    hide Tells, FromModel, RoundEvents, SpokenIn;
    if rounds == [] {
      NothingTells();
    } else {
      var n := |rounds| - 1;
      ScriptTells(world, offerTools, rounds[..n]);
      RoundTells(world, offerTools, n, rounds[n]);
      TellsAppend(Script(world, offerTools, rounds[..n]), Spoken(rounds[..n]), LogOf(rounds[..n]), None,
                  RoundEvents(world, offerTools, n, rounds[n]), SpokenIn(rounds[n]), rounds[n].handled);
    }
  }

  // --- Before the loop -----------------------------------------------------------------------

  /** The hits a turn reports when it comes to store the question. */
  function Retrieved(cfg: Config, world: World, req: Request): Option<seq<Hit>> {
    if Retrieves(cfg, req) then Some(Found(cfg, world, req)) else None
  }

  lemma GreetingTells(cfg: Config, req: Request)
    ensures Tells(Greeting(cfg, req), "", [], None)
  {
    hide Tells;
    var a := if req.quiet then [] else [ThoughtEvent(THINKING)];
    var b := if Retrieves(cfg, req) then [ThoughtEvent(SEARCHING_KNOWLEDGE)] else [];
    NothingTells();
    OneEventTells(ThoughtEvent(THINKING));
    OneEventTells(ThoughtEvent(SEARCHING_KNOWLEDGE));
    TellsAppend(a, "", [], None, b, "", []);
    assert "" + "" == "";
  }

  lemma PreambleTells(cfg: Config, world: World, req: Request)
    ensures Tells(Preamble(cfg, world, req), "", [], Retrieved(cfg, world, req))
  {
    hide TokenText, PhaseOf, CallsOf, ResultsOf, HitsOf, Greeting, Found;
    GreetingTells(cfg, req);
    if Retrieves(cfg, req) {
      var e := RetrievalEvent(Found(cfg, world, req));
      OneEventTells(e);
      StreamsAppend(Greeting(cfg, req), [e]);
      TokenTextAppend(Greeting(cfg, req), [e]);
    } else {
      assert Preamble(cfg, world, req) == Greeting(cfg, req);
    }
  }

  lemma OpeningTells(cfg: Config, world: World, req: Request, auto: seq<Handled>)
    requires |auto| <= 1
    ensures Tells(Opening(cfg, world, req, auto), "", auto, Retrieved(cfg, world, req))
  {
    hide Tells, Preamble, CallEvents, Retrieved;
    PreambleTells(cfg, world, req);
    if auto == [] {
      assert Opening(cfg, world, req, auto) == Preamble(cfg, world, req);
    } else {
      CallTells(SEARCHING_WEB, auto[0]);
      assert auto == [auto[0]];
      TellsAppend(Preamble(cfg, world, req), "", [], Retrieved(cfg, world, req), CallEvents(SEARCHING_WEB, auto[0]), "",
                  auto);
      assert "" + "" == "" && [] + auto == auto;
    }
  }

  // --- The end ---------------------------------------------------------------------------------

  /** Fewer chunks show less. */
  lemma {:induction false} ShownPrefix(fold: TF.Fold, chunks: seq<Chunk>, k: nat)
    requires k <= |chunks|
    ensures TokenText(Shown(fold, chunks[..k])) <= TokenText(Shown(fold, chunks))
  {
    hide FilterAfter, TokenText, EventsOf, ThinkingEvents;
    if k == |chunks| {
      assert chunks[..k] == chunks;
    } else {
      var init, last := chunks[..|chunks| - 1], chunks[|chunks| - 1];
      ShownPrefix(fold, init, k);
      assert init[..k] == chunks[..k];
      TokenTextAppend(Shown(fold, init), ThinkingEvents(last) + EventsOf(FilterAfter(fold, chunks).pieces));
    }
  }

  lemma ShownBegins(fold: TF.Fold, chunks: seq<Chunk>, k: nat)
    requires k <= |chunks|
    ensures TokenText(Shown(fold, chunks[..k])) <= AnswerIn(fold, chunks) && Plain(Shown(fold, chunks[..k]))
  {
    hide AnswerIn, Shown, FlushAfter, TokenText, EventsOf, Plain;
    ShownPrefix(fold, chunks, k);
    ShownText(fold, chunks[..k]);
    ReplyText(fold, chunks);
    TokenTextAppend(Shown(fold, chunks), EventsOf(FlushAfter(fold, chunks)));
  }

  /** Of a reply that was not stored the reader has read a beginning of its answer, or all of it and
      the fallback for a blank one. */
  lemma HeardTells(world: World, setting: Setting, reply: Reply, nudged: bool, sources: seq<Source>, polls: nat,
                   writes: nat, now: Turn)
    ensures var heard, answer := Heard(world, setting, reply, nudged, sources, polls, writes, now),
            AnswerIn(world.fold, reply.chunks);
            && Plain(heard)
            && (TokenText(heard) <= answer || (Blank(answer) && TokenText(heard) == answer + setting.Fallback(sources)))
            && (now.writes > writes ==> answer <= TokenText(heard))
  {
    hide AnswerIn, Shown, TokenText, Plain, Blank, AllCalls, ReplyEvents;
    var chunks, seen := reply.chunks, now.polls - polls;
    assert chunks[..|chunks|] == chunks;
    if now.writes > writes {
      ReplyText(world.fold, chunks);
      var shown, fallback := ReplyEvents(world.fold, chunks), TokenEvent(setting.Fallback(sources));
      assert shown + [] == shown;
      PlainOne(fallback);
      TokenTextAppend(shown, [fallback]);
      PlainAppend(shown, [fallback]);
    } else {
      ShownBegins(world.fold, chunks, |chunks|);
      if 0 < seen <= |chunks| {
        ShownBegins(world.fold, chunks, seen - 1);
      }
    }
  }

  lemma PlainOne(e: Event)
    requires e.TokenEvent?
    ensures Plain([e]) && TokenText([e]) == e.delta
  {
    OneEventTells(e);
  }

  // --- The whole stream ------------------------------------------------------------------------

  /** The events of a turn, given its record. */
  function Transcript(cfg: Config, world: World, req: Request, outcome: Outcome, run: Run): seq<Event> {
    var armed, s := ToolsArmed(cfg, req), Origin(cfg, world, req, run);
    match FirstFailure(cfg, world, req)
    case Some(failure) => failure.shown + [ErrorEvent(failure.code)]
    case None =>
      Opening(cfg, world, req, run.auto) + Script(world, armed, run.rounds)
      + match outcome
        case Completed => [DoneEvent(UsageOf(world, armed, run.rounds), Cited(run.hits, run.Log()))]
        case Crashed => []
        case Stopped(code) =>
          LastEvents(cfg, world, armed, run.end, s, run.rounds, run.open, run.lost) + [ErrorEvent(code)]
  }

  /** The events are exactly those the record and the world call for. */
  lemma EventsAreTranscript(cfg: Config, world: World, req: Request, stored: seq<Row>, events: seq<Event>,
                            outcome: Outcome, run: Run)
    requires RunOk(cfg, world, req, stored, events, outcome, run)
    ensures events == Transcript(cfg, world, req, outcome, run)
  {
    hide Ended, Honest, OpenOk, Paced, Unarmed, Started, FirstFailure, Opening, Script, LastEvents, Cited, UsageOf,
         LogOf, Clear, Polls, Rows, Answered, Unfinished, ToolsArmed, EffectiveSteps;
    if FirstFailure(cfg, world, req) == None {
      match outcome
      case Completed =>
        assert run.Log() == run.auto + LogOf(run.rounds);
        LastAdded(run.end.ledger.events);
      case Crashed =>
        assert events + [] == events;
      case Stopped(code) =>
        var s, armed := Origin(cfg, world, req, run), ToolsArmed(cfg, req);
        var shown := s.shown + Script(world, armed, run.rounds);
        var more := LastEvents(cfg, world, armed, run.end, s, run.rounds, run.open, run.lost);
        assert shown + more + [ErrorEvent(code)] == shown + (more + [ErrorEvent(code)]);
    }
  }

  lemma LastAdded(es: seq<Event>)
    requires es != []
    ensures es == es[..|es| - 1] + [es[|es| - 1]]
  {
  }

  // --- What it says --------------------------------------------------------------------------------

  /** The hits a turn reports: those found, unless it failed before. */
  function Announced(cfg: Config, world: World, req: Request): Option<seq<Hit>> {
    if Ready(cfg, world, req) then Retrieved(cfg, world, req) else None
  }

  lemma FailureTells(cfg: Config, world: World, req: Request)
    requires FirstFailure(cfg, world, req).Some?
    ensures Tells(FirstFailure(cfg, world, req).value.shown, "", [], Announced(cfg, world, req))
  {
    hide Tells, Greeting, Preamble, Retrieved;
    NothingTells();
    GreetingTells(cfg, req);
    PreambleTells(cfg, world, req);
  }

  /** What a turn shows before its last event. */
  function Middle(cfg: Config, world: World, req: Request, outcome: Outcome, run: Run): seq<Event> {
    var s := Origin(cfg, world, req, run);
    if outcome.Stopped?
    then LastEvents(cfg, world, ToolsArmed(cfg, req), run.end, s, run.rounds, run.open, run.lost)
    else []
  }

  lemma MiddleTells(cfg: Config, world: World, req: Request, outcome: Outcome, run: Run)
    requires EndedAs(cfg, world, req, outcome, run.end, Origin(cfg, world, req, run), run.rounds, run.open, run.lost)
    ensures var middle := Middle(cfg, world, req, outcome, run); Tells(middle, TokenText(middle), run.lost, None)
  {
    hide Tells, Opening, Script, Clear, Polls, Rows, Cited, LogOf, UsageOf, Heard, CallsEvents, Plain, Answered,
         Stranded, Unfinished, Vigilant, StoppedWaiting, StoppedAsking, ToolsArmed, EffectiveSteps, TokenText, ReplyTo,
             NudgeEvents;
    NothingTells();
    CallsTell(run.lost);
    if outcome.Stopped? && run.open != [] {
      var s, armed, o := Origin(cfg, world, req, run), ToolsArmed(cfg, req), run.open[0];
      var reply, sources := ReplyTo(world, armed, |run.rounds|, o.handed, o.nudged),
          Cited(s.hits, s.auto + LogOf(run.rounds));
      var p, w := AskedAfter(world, armed, s, run.rounds, o.nudged), s.writes + |Rows(run.rounds)|;
      var heard := Heard(world, cfg.setting, reply, o.nudged, sources, p, w, run.end);
      HeardTells(world, cfg.setting, reply, o.nudged, sources, p, w, run.end);
      NudgeTells(o.nudged);
      PlainBehind(NudgeEvents(o.nudged), heard);
      TellsItsText(NudgeEvents(o.nudged) + heard, TokenText(heard), [], None);
    } else {
      TellsItsText(CallsEvents(run.lost), "", run.lost, None);
      TellsItsText([], "", [], None);
    }
  }

  lemma PlainBehind(a: seq<Event>, b: seq<Event>)
    requires Tells(a, "", [], None) && Plain(b)
    ensures Tells(a + b, TokenText(b), [], None)
  {
    hide PhaseOf, CallsOf, ResultsOf, HitsOf, TokenText, Plain;
    PlainTells(b);
    TellsAppend(a, "", [], None, b, TokenText(b), []);
    assert "" + TokenText(b) == TokenText(b);
  }

  lemma TellsItsText(es: seq<Event>, text: string, log: seq<Handled>, hits: Option<seq<Hit>>)
    requires Tells(es, text, log, hits)
    ensures Tells(es, TokenText(es), log, hits)
  {
  }

  /** A last event closes the stream and says nothing else. */
  lemma LastTells(es: seq<Event>, text: string, log: seq<Handled>, hits: Option<seq<Hit>>, e: Event)
    requires Tells(es, text, log, hits) && Terminal(e)
    ensures PhaseOf(es + [e]) == Closed && TokenText(es + [e]) == text && HitsOf(es + [e]) == hits
    ensures CallsOf(es + [e]) == CallsIn(log) && ResultsOf(es + [e]) == ResultsIn(log)
  {
    assert (es + [e])[..|es|] == es;
  }

  lemma TellsFacts(es: seq<Event>, text: string, log: seq<Handled>, hits: Option<seq<Hit>>)
    requires Tells(es, text, log, hits)
    ensures PhaseOf(es) == Idle && TokenText(es) == text && HitsOf(es) == hits
    ensures CallsOf(es) == CallsIn(log) && ResultsOf(es) == ResultsIn(log)
  {
  }

  lemma NothingRan(cfg: Config, world: World, req: Request, outcome: Outcome, run: Run)
    requires run.auto == [] && run.rounds == [] && run.lost == [] && run.open == []
    ensures run.Log() == [] && TokenText(Middle(cfg, world, req, outcome, run)) == "" && Spoken(run.rounds) == ""
  {
    assert CallsEvents([]) == [];
  }

  lemma ReadyWhenStarted(cfg: Config, world: World, req: Request)
    requires FirstFailure(cfg, world, req) == None
    ensures Announced(cfg, world, req) == Retrieved(cfg, world, req)
  {
  }

  lemma TranscriptEnds(cfg: Config, world: World, req: Request, outcome: Outcome, run: Run, e: Event)
    requires FirstFailure(cfg, world, req) == None
    requires outcome.Stopped? ==> e == ErrorEvent(outcome.code)
    requires outcome == Completed ==>
               e == DoneEvent(UsageOf(world, ToolsArmed(cfg, req), run.rounds), Cited(run.hits, run.Log()))
    ensures var shown := Opening(cfg, world, req, run.auto) + Script(world, ToolsArmed(cfg, req), run.rounds)
                         + Middle(cfg, world, req, outcome, run);
            Transcript(cfg, world, req, outcome, run) == if outcome == Crashed then shown else shown + [e]
  {
    hide FirstFailure, Opening, Script, LastEvents, Cited, UsageOf;
    var shown := Opening(cfg, world, req, run.auto) + Script(world, ToolsArmed(cfg, req), run.rounds);
    var middle := Middle(cfg, world, req, outcome, run);
    assert shown + middle + [e] == shown + (middle + [e]);
    assert [] + [e] == [e];
  }

  /** Everything a stream says of its turn: the calls and results are those of the log, the hits those
      found, and it is closed unless the turn crashed. */
  lemma TurnTells(cfg: Config, world: World, req: Request, stored: seq<Row>, events: seq<Event>,
                  outcome: Outcome, run: Run)
    requires RunOk(cfg, world, req, stored, events, outcome, run)
    ensures CallsOf(events) == CallsIn(run.Log()) && ResultsOf(events) == ResultsIn(run.Log())
    ensures HitsOf(events) == Announced(cfg, world, req)
    ensures PhaseOf(events) == if outcome == Crashed then Idle else Closed
    ensures TokenText(events) == Spoken(run.rounds) + TokenText(Middle(cfg, world, req, outcome, run))
  {
    hide Ended, Honest, OpenOk, Paced, Unarmed, FirstFailure, PhaseOf, CallsOf, ResultsOf, HitsOf, TokenText, Opening,
         Script, LastEvents, Cited, UsageOf, LogOf, Spoken, Tells, Announced, EndedAs, CallsIn, ResultsIn, Started;
    EventsAreTranscript(cfg, world, req, stored, events, outcome, run);
    if FirstFailure(cfg, world, req).Some? {
      var failure := FirstFailure(cfg, world, req).value;
      FailureTells(cfg, world, req);
      LastTells(failure.shown, "", [], Announced(cfg, world, req), ErrorEvent(failure.code));
      NothingRan(cfg, world, req, outcome, run);
    } else {
      var armed := ToolsArmed(cfg, req);
      var opening, script, middle := Opening(cfg, world, req, run.auto), Script(world, armed, run.rounds),
                                     Middle(cfg, world, req, outcome, run);
      OpeningTells(cfg, world, req, run.auto);
      ReadyWhenStarted(cfg, world, req);
      ScriptTells(world, armed, run.rounds);
      MiddleTells(cfg, world, req, outcome, run);
      TellsAppend(opening, "", run.auto, Announced(cfg, world, req), script, Spoken(run.rounds), LogOf(run.rounds));
      assert "" + Spoken(run.rounds) == Spoken(run.rounds);
      TellsAppend(opening + script, Spoken(run.rounds), run.auto + LogOf(run.rounds), Announced(cfg, world, req),
                  middle, TokenText(middle), run.lost);
      var e := if outcome.Stopped? then ErrorEvent(outcome.code)
               else DoneEvent(UsageOf(world, armed, run.rounds), Cited(run.hits, run.Log()));
      LastTells(opening + script + middle, Spoken(run.rounds) + TokenText(middle), run.Log(),
                Announced(cfg, world, req), e);
      TranscriptEnds(cfg, world, req, outcome, run, e);
      TellsFacts(opening + script + middle, Spoken(run.rounds) + TokenText(middle), run.Log(),
                 Announced(cfg, world, req));
    }
  }

  /** The answer of the model call that stored nothing. */
  function OpenAnswer(cfg: Config, world: World, req: Request, run: Run): string
    requires run.open != []
  {
    var reply := ReplyTo(world, ToolsArmed(cfg, req), |run.rounds|, run.open[0].handed, run.open[0].nudged);
    AnswerIn(world.fold, reply.chunks)
  }

  /** The text shown is what the stored rounds spoke and then, of a reply that was not stored, a beginning
      of its answer, or all of a blank answer and the fallback. */
  lemma ShownIsSpoken(cfg: Config, world: World, req: Request, stored: seq<Row>, events: seq<Event>,
                      outcome: Outcome, run: Run)
    requires RunOk(cfg, world, req, stored, events, outcome, run)
    ensures run.open == [] ==> TokenText(events) == Spoken(run.rounds)
    ensures run.open != [] ==> exists rest | TokenText(events) == Spoken(run.rounds) + rest ::
              || rest <= OpenAnswer(cfg, world, req, run)
              || (Blank(OpenAnswer(cfg, world, req, run))
                  && rest == OpenAnswer(cfg, world, req, run)
                     + cfg.setting.Fallback(Cited(run.hits, run.auto + LogOf(run.rounds))))
  {
    hide RunOk, Opening, Script, Clear, Polls, Rows, Cited, LogOf, UsageOf, Heard, CallsEvents, Plain, ToolsArmed,
         AnswerIn, TokenText, ReplyTo, NudgeEvents, Spoken, Blank;
    TurnTells(cfg, world, req, stored, events, outcome, run);
    OpenMeansStopped(cfg, world, req, stored, events, outcome, run);
    CallsTell(run.lost);
    NothingTells();
    TellsText(CallsEvents(run.lost), "", run.lost);
    TellsText([], "", []);
    assert Spoken(run.rounds) + "" == Spoken(run.rounds);
    if run.open != [] {
      var s, armed, o := Origin(cfg, world, req, run), ToolsArmed(cfg, req), run.open[0];
      var reply, sources := ReplyTo(world, armed, |run.rounds|, o.handed, o.nudged),
          Cited(s.hits, s.auto + LogOf(run.rounds));
      var p, w := AskedAfter(world, armed, s, run.rounds, o.nudged), s.writes + |Rows(run.rounds)|;
      var heard := Heard(world, cfg.setting, reply, o.nudged, sources, p, w, run.end);
      HeardTells(world, cfg.setting, reply, o.nudged, sources, p, w, run.end);
      NudgeTells(o.nudged);
      PlainBehind(NudgeEvents(o.nudged), heard);
      TellsText(NudgeEvents(o.nudged) + heard, TokenText(heard), []);
      assert TokenText(events) == Spoken(run.rounds) + TokenText(heard);
    }
  }

  lemma TellsText(es: seq<Event>, text: string, log: seq<Handled>)
    requires Tells(es, text, log, None)
    ensures TokenText(es) == text
  {
  }

  lemma OpenMeansStopped(cfg: Config, world: World, req: Request, stored: seq<Row>, events: seq<Event>,
                         outcome: Outcome, run: Run)
    requires RunOk(cfg, world, req, stored, events, outcome, run)
    ensures run.open != [] ==> outcome.Stopped?
  {
    hide Ended, Honest, OpenOk, Paced, Unarmed, FirstFailure, Started, Opening, Vigilant, Answered, Stranded, StoppedAt,
         Unfinished, Cited, LogOf;
  }

  /** The stream of a completed turn ends with its usage and sources; its rounds said everything. */
  lemma CompletedTells(cfg: Config, world: World, req: Request, stored: seq<Row>, events: seq<Event>,
                       outcome: Outcome, run: Run)
    requires RunOk(cfg, world, req, stored, events, outcome, run) && outcome == Completed
    ensures Answered(run.rounds) && run.lost == [] && TokenText(events) == Spoken(run.rounds)
    ensures RoundsOk(cfg.setting, run.base, run.hits, run.auto, run.rounds)
    ensures LastIs(events, DoneEvent(UsageOf(world, ToolsArmed(cfg, req), run.rounds), Cited(run.hits, run.Log())))
  {
    hide RoundsOk, Honest, OpenOk, Paced, Unarmed, FirstFailure, Started, Opening, Script, Cited, LogOf, UsageOf,
         TokenText, Spoken, Answered, Clear, Polls, Rows, Tally;
    ShownIsSpoken(cfg, world, req, stored, events, outcome, run);
    assert run.Log() == run.auto + LogOf(run.rounds);
  }
}
