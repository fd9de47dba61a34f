/** What one chat turn leaves behind - its events, the tool calls it handled and the rounds it
    stored - and the laws every such record obeys. */
module ChatRun {
  import opened Wrappers
  import opened Messages
  import opened ToolHelpers
  import opened History
  import opened Sources
  import opened Text

  // --- The event stream ----------------------------------------------------------------

  datatype Event =
    | ThoughtEvent(text: string)
    | TokenEvent(delta: string)
    | RetrievalEvent(hits: seq<Hit>)
    | ToolCallEvent(call: ToolCall)
    | ToolResultEvent(answered: ToolCall, content: string, isError: bool)
    | DoneEvent(usage: Option<string>, cited: seq<Source>)
    | ErrorEvent(code: string)

  predicate Terminal(e: Event) { e.DoneEvent? || e.ErrorEvent? }

  /** Where a stream stands: open, waiting for the result of a call, closed, or malformed. */
  datatype Phase = Idle | Awaiting(call: ToolCall) | Closed | Broken

  function Advance(p: Phase, e: Event): Phase {
    match p
    case Idle =>
      if Terminal(e) then Closed
      else if e.ToolCallEvent? then Awaiting(e.call)
      else if e.ToolResultEvent? then Broken
      else Idle
    case Awaiting(call) => if e.ToolResultEvent? && e.answered == call then Idle else Broken
    case Closed => Broken
    case Broken => Broken
  }

  function PhaseOf(es: seq<Event>): Phase {
    if es == [] then Idle else Advance(PhaseOf(es[..|es| - 1]), es[|es| - 1])
  }

  /** All answer text, in order. */
  function TokenText(es: seq<Event>): string {
    if es == [] then ""
    else
      var last := es[|es| - 1];
      TokenText(es[..|es| - 1]) + (if last.TokenEvent? then last.delta else "")
  }

  function CallsOf(es: seq<Event>): seq<ToolCall> {
    if es == [] then []
    else
      var last := es[|es| - 1];
      CallsOf(es[..|es| - 1]) + (if last.ToolCallEvent? then [last.call] else [])
  }

  function ResultsOf(es: seq<Event>): seq<Event> {
    if es == [] then []
    else
      var last := es[|es| - 1];
      ResultsOf(es[..|es| - 1]) + (if last.ToolResultEvent? then [last] else [])
  }

  /** A closed stream has exactly one terminal event, at its end, and every call event is
      followed at once by its own result; no result comes without its call. */
  predicate WellShaped(es: seq<Event>) {
    && es != [] && Terminal(es[|es| - 1])
    && (forall i | 0 <= i < |es| - 1 :: !Terminal(es[i]))
    && (forall i | 0 <= i < |es| && es[i].ToolCallEvent? ::
          i + 1 < |es| && es[i + 1].ToolResultEvent? && es[i + 1].answered == es[i].call)
    && (forall i | 0 <= i < |es| && es[i].ToolResultEvent? ::
          i > 0 && es[i - 1].ToolCallEvent? && es[i - 1].call == es[i].answered)
  }

  /** A stream that may still go on: no terminal event, every call but a last one answered. */
  predicate OpenShaped(es: seq<Event>) {
    && (forall i | 0 <= i < |es| :: !Terminal(es[i]))
    && (forall i | 0 <= i < |es| - 1 && es[i].ToolCallEvent? ::
          es[i + 1].ToolResultEvent? && es[i + 1].answered == es[i].call)
    && (forall i | 0 <= i < |es| && es[i].ToolResultEvent? ::
          i > 0 && es[i - 1].ToolCallEvent? && es[i - 1].call == es[i].answered)
  }

  lemma {:induction false} OpenPhases(es: seq<Event>)
    ensures PhaseOf(es) == Idle <==> OpenShaped(es) && (es != [] ==> !es[|es| - 1].ToolCallEvent?)
    ensures PhaseOf(es).Awaiting? <==> OpenShaped(es) && es != [] && es[|es| - 1].ToolCallEvent?
    ensures PhaseOf(es).Awaiting? ==> es[|es| - 1] == ToolCallEvent(PhaseOf(es).call)
  {
    if es == [] {
      assert OpenShaped(es);
    } else {
      hide OpenShaped;
      var init, last := es[..|es| - 1], es[|es| - 1];
      OpenPhases(init);
      OpenNext(init, last);
      assert es == init + [last];
    }
  }

  /** What the next event must be for an open stream to stay open. */
  lemma OpenNext(es: seq<Event>, e: Event)
    ensures OpenShaped(es + [e])
            <==> OpenShaped(es) && !Terminal(e)
                 && (e.ToolResultEvent? <==> es != [] && es[|es| - 1].ToolCallEvent?)
                 && (e.ToolResultEvent? ==> e.answered == es[|es| - 1].call)
  {
    var longer := es + [e];
    assert longer[|es|] == e;
    assert forall i | 0 <= i < |es| :: longer[i] == es[i];
    if OpenShaped(longer) {
      assert OpenShaped(es);
    }
  }

  /** The automaton accepts exactly the well-shaped streams. */
  lemma ClosedMeansWellShaped(es: seq<Event>)
    ensures PhaseOf(es) == Closed <==> WellShaped(es)
  {
    if es != [] {
      var init := es[..|es| - 1];
      OpenPhases(init);
      assert forall i | 0 <= i < |init| :: init[i] == es[i];
      if WellShaped(es) {
        assert OpenShaped(init);
        assert init != [] ==> !es[|init| - 1].ToolCallEvent?;
      }
      if PhaseOf(es) == Closed {
        assert OpenShaped(init);
      }
    }
  }

  // --- The tool log ----------------------------------------------------------------------

  /** What became of a requested call. */
  datatype Act = OverCap | OverLimit | Duplicate | Dispatched

  /** A requested call, its position among the calls of its step, and its outcome. */
  datatype Handled = Handled(index: nat, call: ToolCall, act: Act, result: ToolResult)

  function DispatchedKeys(log: seq<Handled>): set<string> {
    if log == [] then {}
    else
      var last := log[|log| - 1];
      DispatchedKeys(log[..|log| - 1]) + (if last.act.Dispatched? then {ToolCallKey(last.call)} else {})
  }

  function Dispatches(log: seq<Handled>, name: string): nat {
    if log == [] then 0
    else
      var last := log[|log| - 1];
      Dispatches(log[..|log| - 1], name) + (if last.act.Dispatched? && last.call.name == name then 1 else 0)
  }

  /** What must happen to a call, given everything handled before it in this turn. */
  function Decide(log: seq<Handled>, index: nat, cap: int, call: ToolCall): Act {
    var limit := ToolTurnLimit(call.name);
    if index >= cap then OverCap
    else if limit.Some? && Dispatches(log, call.name) >= limit.value then OverLimit
    else if ToolCallKey(call) in DispatchedKeys(log) then Duplicate
    else Dispatched
  }

  predicate LogOk(log: seq<Handled>, cap: int) {
    log == [] ||
    var init, last := log[..|log| - 1], log[|log| - 1];
    LogOk(init, cap) && last.act == Decide(init, last.index, cap, last.call)
  }

  function CallsIn(log: seq<Handled>): (r: seq<ToolCall>)
    ensures |r| == |log|
  {
    seq(|log|, i requires 0 <= i < |log| => log[i].call)
  }

  function ResultsIn(log: seq<Handled>): (r: seq<Event>)
    ensures |r| == |log|
  {
    seq(|log|, i requires 0 <= i < |log| =>
      ToolResultEvent(log[i].call, log[i].result.content, log[i].result.isError))
  }

  /** Sources gathered by the time `log` was handled. */
  function Cited(hits: seq<Hit>, log: seq<Handled>): seq<Source> {
    if log == [] then Ranked(HitPayloads(hits), 1)
    else
      var before := Cited(hits, log[..|log| - 1]);
      before + Ranked(ToolPayloads(log[|log| - 1].result), |before| + 1)
  }

  /** One more handled call, for every reading of the log. */
  lemma LogSnoc(log: seq<Handled>, h: Handled, cap: int, hits: seq<Hit>)
    ensures LogOk(log + [h], cap) <==> LogOk(log, cap) && h.act == Decide(log, h.index, cap, h.call)
    ensures DispatchedKeys(log + [h])
            == DispatchedKeys(log) + (if h.act.Dispatched? then {ToolCallKey(h.call)} else {})
    ensures forall n :: Dispatches(log + [h], n)
                        == Dispatches(log, n) + (if h.act.Dispatched? && h.call.name == n then 1 else 0)
    ensures TotalDispatches(log + [h]) == TotalDispatches(log) + (if h.act.Dispatched? then 1 else 0)
    ensures CallsIn(log + [h]) == CallsIn(log) + [h.call]
    ensures ResultsIn(log + [h])
            == ResultsIn(log) + [ToolResultEvent(h.call, h.result.content, h.result.isError)]
    ensures Cited(hits, log + [h])
            == Cited(hits, log) + Ranked(ToolPayloads(h.result), |Cited(hits, log)| + 1)
  {
    assert (log + [h])[..|log|] == log;
  }

  // --- Laws of the log -----------------------------------------------------------------------

  lemma {:induction false} KeyDispatched(log: seq<Handled>, i: nat)
    requires i < |log| && log[i].act.Dispatched?
    ensures ToolCallKey(log[i].call) in DispatchedKeys(log)
  {
    if i < |log| - 1 {
      KeyDispatched(log[..|log| - 1], i);
    }
  }

  /** No tool call (same name, same arguments) is run twice in a turn. */
  lemma {:induction false} NeverRunTwice(log: seq<Handled>, cap: int, i: nat, j: nat)
    requires LogOk(log, cap) && i < j < |log|
    requires log[i].act.Dispatched? && log[j].act.Dispatched?
    ensures ToolCallKey(log[i].call) != ToolCallKey(log[j].call)
    ensures log[i].call.name != log[j].call.name || log[i].call.arguments != log[j].call.arguments
  {
    var init := log[..|log| - 1];
    if j == |log| - 1 {
      KeyDispatched(init, i);
    } else {
      NeverRunTwice(init, cap, i, j);
    }
  }

  /** A tool with a per-turn limit never runs more often than that. */
  lemma {:induction false} LimitsHold(log: seq<Handled>, cap: int, name: string)
    requires LogOk(log, cap) && ToolTurnLimit(name).Some?
    ensures Dispatches(log, name) <= ToolTurnLimit(name).value
    ensures name == "web_search" ==> Dispatches(log, name) <= 1
    ensures name == "web_fetch" ==> Dispatches(log, name) <= 2
  {
    if log != [] {
      LimitsHold(log[..|log| - 1], cap, name);
    }
  }

  /** The earlier calls of that name that were run. */
  function RunBefore(log: seq<Handled>, name: string): set<int> {
    set i | 0 <= i < |log| && log[i].act.Dispatched? && log[i].call.name == name
  }

  lemma {:induction false} DispatchesCount(log: seq<Handled>, name: string)
    ensures Dispatches(log, name) == |RunBefore(log, name)|
  {
    if log != [] {
      var n := |log| - 1;
      DispatchesCount(log[..n], name);
      var one := if log[n].act.Dispatched? && log[n].call.name == name then {n} else {};
      assert RunBefore(log, name) == RunBefore(log[..n], name) + one;
      assert n !in RunBefore(log[..n], name);
    } else {
      assert RunBefore(log, name) == {};
    }
  }

  lemma {:induction false} KeysRunBefore(log: seq<Handled>, key: string)
    ensures key in DispatchedKeys(log)
            <==> exists i | 0 <= i < |log| :: log[i].act.Dispatched? && ToolCallKey(log[i].call) == key
  {
    hide ToolCallKey;
    if log != [] {
      var init := log[..|log| - 1];
      KeysRunBefore(init, key);
      assert forall i | 0 <= i < |init| :: init[i] == log[i];
    }
  }

  /** A call is past the cap by its position, past its limit when web_search ran once or web_fetch twice,
      and a duplicate when a call with its name and canonical arguments ran; else it is run. What is
      tested first counts. */
  lemma ActIsRight(log: seq<Handled>, index: nat, cap: int, call: ToolCall)
    ensures var act := Decide(log, index, cap, call);
            var spent := || (call.name == "web_search" && |RunBefore(log, call.name)| >= 1)
                         || (call.name == "web_fetch" && |RunBefore(log, call.name)| >= 2);
            var ran := exists i | 0 <= i < |log| :: log[i].act.Dispatched?
                         && log[i].call.name + ":" + log[i].call.arguments.canonical
                            == call.name + ":" + call.arguments.canonical;
            && (act == OverCap <==> index >= cap)
            && (act == OverLimit <==> index < cap && spent)
            && (act == Duplicate <==> index < cap && !spent && ran)
            && (act == Dispatched <==> index < cap && !spent && !ran)
  {
    hide Dispatches, DispatchedKeys, RunBefore;
    DispatchesCount(log, call.name);
    KeysRunBefore(log, ToolCallKey(call));
  }

  /** As long as tool names hold no colon, only a call that ran with equal name and equal canonical
      arguments makes a later one a duplicate. */
  lemma DuplicateIsEqual(log: seq<Handled>, index: nat, cap: int, call: ToolCall)
    requires ':' !in call.name && forall h | h in log :: ':' !in h.call.name
    requires Decide(log, index, cap, call) == Duplicate
    ensures exists i | 0 <= i < |log| :: log[i].act.Dispatched? && log[i].call.name == call.name
                                         && log[i].call.arguments.canonical == call.arguments.canonical
  {
    ActIsRight(log, index, cap, call);
    var i :| 0 <= i < |log| && log[i].act.Dispatched?
             && log[i].call.name + ":" + log[i].call.arguments.canonical == call.name + ":" + call.arguments.canonical;
    ColonSplits(log[i].call.name, log[i].call.arguments.canonical, call.name, call.arguments.canonical);
  }

  lemma ColonSplits(a: string, b: string, c: string, d: string)
    requires ':' !in a && ':' !in c && a + ":" + b == c + ":" + d
    ensures a == c && b == d
  {
    var s := a + ":" + b;
    assert s == c + ":" + d && s[|a|] == ':' && s[|c|] == ':';
    assert forall k | 0 <= k < |c| :: s[k] == c[k] && c[k] in c;
    assert forall k | 0 <= k < |a| :: s[k] == a[k] && a[k] in a;
    assert |a| == |c|;
    assert a == s[..|a|] && c == s[..|c|] && b == s[|a| + 1..] && d == s[|c| + 1..];
  }

  function TotalDispatches(log: seq<Handled>): nat {
    if log == [] then 0
    else TotalDispatches(log[..|log| - 1]) + (if log[|log| - 1].act.Dispatched? then 1 else 0)
  }

  lemma {:induction false} TotalDispatchesAppend(a: seq<Handled>, b: seq<Handled>)
    ensures TotalDispatches(a + b) == TotalDispatches(a) + TotalDispatches(b)
  {
    if b == [] {
      assert a + b == a;
    } else {
      assert (a + b)[..|a + b| - 1] == a + b[..|b| - 1];
      TotalDispatchesAppend(a, b[..|b| - 1]);
    }
  }

  /** Ranks are exactly 1..n, in order, at every moment of a turn. */
  lemma {:induction false} RanksAreConsecutive(hits: seq<Hit>, log: seq<Handled>)
    ensures forall i | 0 <= i < |Cited(hits, log)| :: Cited(hits, log)[i].rank == i + 1
  {
    if log != [] {
      RanksAreConsecutive(hits, log[..|log| - 1]);
    }
  }

  /** A turn cites its hits first and then what each result brought, in order, numbered through. */
  lemma CitedSpell(hits: seq<Hit>, log: seq<Handled>, h: Handled)
    ensures |Cited(hits, [])| == |hits| && forall i | 0 <= i < |hits| ::
            Cited(hits, [])[i] == Source(i + 1, hits[i].payload)
    ensures var before, after := Cited(hits, log), Cited(hits, log + [h]);
            var brought := if h.result.rawSources.None? then [] else Objects(h.result.rawSources.value);
            && |after| == |before| + |brought| && before <= after
            && forall k | 0 <= k < |brought| :: after[|before| + k] == Source(|before| + k + 1, brought[k])
  {
    hide Objects;
    assert (log + [h])[..|log|] == log;
  }

  /** Sources only ever grow at the end. */
  lemma {:induction false} CitedGrows(hits: seq<Hit>, a: seq<Handled>, b: seq<Handled>)
    ensures Cited(hits, a) <= Cited(hits, a + b)
  {
    if b == [] {
      assert a + b == a;
    } else {
      assert (a + b)[..|a + b| - 1] == a + b[..|b| - 1];
      CitedGrows(hits, a, b[..|b| - 1]);
    }
  }

  // --- Rounds -----------------------------------------------------------------------------------

  /** One LLM round that stored its assistant row: the list the model was handed, whether the
      stop-calling nudge was in it, what it streamed, the stored row and the calls answered. */
  datatype Round = Round(handed: seq<Message>, nudged: bool, streamed: string, row: Message, handled: seq<Handled>)

  /** How the prompt is managed and worded: the context window, the stop-calling nudge, the answer
      shown for a blank one (depending on whether there are sources), the evidence instruction. */
  datatype Setting = Setting(window: Option<Window>, nudge: string, fallback: bool -> string, evidence: string) {
    function Nudge(): Message { SystemMessage(nudge) }

    function WindowAt(call: nat): Option<Window> {
      if window.None? then None else Some(window.value.(call := call))
    }

    /** The list a model call starts from, before it is fitted. */
    function Offer(base: seq<Message>, rows: seq<Message>, nudged: bool): seq<Message> {
      base + rows + (if nudged then [Nudge()] else [])
    }

    /** The list model call number `call` is handed. */
    function Handed(call: nat, base: seq<Message>, rows: seq<Message>, nudged: bool): seq<Message> {
      Fitted(WindowAt(call), Offer(base, rows, nudged))
    }

    function Fallback(sources: seq<Source>): string { fallback(sources != []) }

    function Evidence(): Message { SystemMessage(evidence) }
  }

  function ToolRow(h: Handled): Message {
    Message(Tool, h.result.content, toolCallId := Some(h.call.id), toolName := Some(h.call.name))
  }

  function ToolRows(hs: seq<Handled>): (r: seq<Message>)
    ensures |r| == |hs| && forall i | 0 <= i < |hs| :: r[i] == ToolRow(hs[i])
  {
    seq(|hs|, i requires 0 <= i < |hs| => ToolRow(hs[i]))
  }

  function RowsOf(r: Round): seq<Message> { [r.row] + ToolRows(r.handled) }

  /** The rows a turn appended, in order. */
  function Rows(rounds: seq<Round>): seq<Message> {
    if rounds == [] then [] else Rows(rounds[..|rounds| - 1]) + RowsOf(rounds[|rounds| - 1])
  }

  function LogOf(rounds: seq<Round>): seq<Handled> {
    if rounds == [] then [] else LogOf(rounds[..|rounds| - 1]) + rounds[|rounds| - 1].handled
  }

  /** The calls a round has answered so far are the first ones its row declares. */
  predicate AnswersInOrder(r: Round) {
    && r.row.role.Assistant? && |r.handled| <= |r.row.toolCalls|
    && forall k | 0 <= k < |r.handled| :: r.handled[k].index == k && r.handled[k].call == r.row.toolCalls[k]
  }

  predicate Complete(r: Round) { |r.handled| == |r.row.toolCalls| }

  /** A final round is blank when it asks for nothing and says nothing. */
  predicate BlankAnswer(r: Round) { r.row.toolCalls == [] && Blank(r.streamed) }

  /** A round as the loop must produce it, after `before`, on top of the prompt `base`. */
  predicate RoundOk(setting: Setting, base: seq<Message>, hits: seq<Hit>, auto: seq<Handled>,
                    before: seq<Round>, r: Round) {
    && r.handed == setting.Handed(|before|, base, Rows(before), r.nudged)
    && AnswersInOrder(r)
    && r.row.sources == Cited(hits, auto + LogOf(before))
    && r.row.content == (if BlankAnswer(r) then setting.Fallback(r.row.sources) else r.streamed)
    && (r.nudged ==> r.row.toolCalls == [])
    && r.row.toolCallId == None && r.row.toolName == None
  }

  /** Every round but a last one is complete and asked for tools; only the last may be nudged. */
  predicate RoundsOk(setting: Setting, base: seq<Message>, hits: seq<Hit>, auto: seq<Handled>,
                     rounds: seq<Round>) {
    rounds == [] ||
    var init, last := rounds[..|rounds| - 1], rounds[|rounds| - 1];
    && RoundsOk(setting, base, hits, auto, init)
    && (forall r | r in init :: Complete(r) && r.row.toolCalls != [] && !r.nudged)
    && RoundOk(setting, base, hits, auto, init, last)
  }

  lemma RoundsSnoc(setting: Setting, base: seq<Message>, hits: seq<Hit>, auto: seq<Handled>,
                   rounds: seq<Round>, r: Round)
    ensures Rows(rounds + [r]) == Rows(rounds) + RowsOf(r)
    ensures LogOf(rounds + [r]) == LogOf(rounds) + r.handled
    ensures RoundsOk(setting, base, hits, auto, rounds + [r]) <==>
            && RoundsOk(setting, base, hits, auto, rounds)
            && (forall q | q in rounds :: Complete(q) && q.row.toolCalls != [] && !q.nudged)
            && RoundOk(setting, base, hits, auto, rounds, r)
  {
    assert (rounds + [r])[..|rounds|] == rounds;
  }

  // --- Laws of the rounds --------------------------------------------------------------------------

  lemma {:induction false} RoundsPrefix(setting: Setting, base: seq<Message>, hits: seq<Hit>,
                                        auto: seq<Handled>, rounds: seq<Round>, n: nat)
    requires RoundsOk(setting, base, hits, auto, rounds) && n < |rounds|
    ensures RoundsOk(setting, base, hits, auto, rounds[..n])
    ensures RoundOk(setting, base, hits, auto, rounds[..n], rounds[n])
    ensures forall r | r in rounds[..n] :: Complete(r)
  {
    hide RoundOk, Complete;
    var init := rounds[..|rounds| - 1];
    if n < |rounds| - 1 {
      RoundsPrefix(setting, base, hits, auto, init, n);
      assert init[..n] == rounds[..n];
    }
  }

  lemma RoundRowsAnswer(r: Round)
    requires AnswersInOrder(r)
    ensures forall k | 0 <= k < |r.handled| :: Answers(ToolRows(r.handled)[k], Opens(r.row)[k])
    ensures Complete(r) ==> AnswersAll(ToolRows(r.handled), Opens(r.row)) && Blocks(RowsOf(r))
    ensures OrphanFree(RowsOf(r))
  {
    var answers := ToolRows(r.handled);
    AnsweredOrphanFree(r.row, answers, |answers|);
    assert answers[..|answers|] == answers;
    if Complete(r) {
      BlockOfOne(r.row, answers);
    }
  }

  /** The rows of a turn never contain an orphan, whenever and however it stopped. */
  lemma {:induction false} RowsOrphanFree(setting: Setting, base: seq<Message>, hits: seq<Hit>,
                                          auto: seq<Handled>, rounds: seq<Round>)
    requires RoundsOk(setting, base, hits, auto, rounds)
    ensures OrphanFree(Rows(rounds))
  {
    if rounds != [] {
      var init, last := rounds[..|rounds| - 1], rounds[|rounds| - 1];
      RowsOrphanFree(setting, base, hits, auto, init);
      RoundRowsAnswer(last);
      OrphanFreeAppend(Rows(init), RowsOf(last));
    }
  }

  /** They are whole blocks exactly when the last round was answered in full. */
  lemma {:induction false} RowsAreBlocks(setting: Setting, base: seq<Message>, hits: seq<Hit>,
                                         auto: seq<Handled>, rounds: seq<Round>)
    requires RoundsOk(setting, base, hits, auto, rounds)
    requires rounds == [] || Complete(rounds[|rounds| - 1])
    ensures Blocks(Rows(rounds))
  {
    if rounds != [] {
      var init, last := rounds[..|rounds| - 1], rounds[|rounds| - 1];
      assert forall r | r in init :: Complete(r);
      RowsAreBlocks(setting, base, hits, auto, init);
      RoundRowsAnswer(last);
      BlocksAppend(Rows(init), RowsOf(last));
    }
  }

  /** Every list a round was handed is orphan-free if the prompt was. */
  lemma HandedOrphanFree(setting: Setting, base: seq<Message>, hits: seq<Hit>, auto: seq<Handled>,
                         rounds: seq<Round>, n: nat)
    requires RoundsOk(setting, base, hits, auto, rounds) && n < |rounds| && OrphanFree(base)
    ensures OrphanFree(rounds[n].handed)
  {
    hide OrphanFree, Fitted, RoundsOk;
    RoundsPrefix(setting, base, hits, auto, rounds, n);
    RowsOrphanFree(setting, base, hits, auto, rounds[..n]);
    HandOver(setting, n, base, Rows(rounds[..n]), rounds[n].nudged);
  }

  lemma HandOver(setting: Setting, call: nat, base: seq<Message>, rows: seq<Message>, nudged: bool)
    requires OrphanFree(base) && OrphanFree(rows)
    ensures OrphanFree(setting.Handed(call, base, rows, nudged))
  {
    hide OrphanFree, Fitted;
    var nudge := if nudged then [setting.Nudge()] else [];
    ToolFreeOrphanFree(nudge);
    OrphanFreeAppend(base, rows);
    OrphanFreeAppend(base + rows, nudge);
    FittedOrphanFree(setting.WindowAt(call), base + rows + nudge);
  }

  predicate NamedCalls(rounds: seq<Round>) {
    forall r, c | r in rounds && c in r.row.toolCalls :: c.id != ""
  }

  lemma {:induction false} RowsNonEmptyIds(rounds: seq<Round>)
    requires NamedCalls(rounds) && forall r | r in rounds :: AnswersInOrder(r)
    ensures NonEmptyIds(Rows(rounds))
  {
    if rounds != [] {
      var init, last := rounds[..|rounds| - 1], rounds[|rounds| - 1];
      assert forall r | r in init :: r in rounds;
      RowsNonEmptyIds(init);
      assert last in rounds && AnswersInOrder(last);
      forall i | 0 <= i < |RowsOf(last)| ensures NonEmptyId(RowsOf(last)[i]) {
        if i > 0 {
          var call := last.row.toolCalls[i - 1];
          assert last in rounds && call in last.row.toolCalls && last.handled[i - 1].call == call;
        }
      }
    }
  }

  lemma {:induction false} RoundsAnswerInOrder(setting: Setting, base: seq<Message>, hits: seq<Hit>,
                                               auto: seq<Handled>, rounds: seq<Round>)
    requires RoundsOk(setting, base, hits, auto, rounds)
    ensures forall r | r in rounds :: AnswersInOrder(r)
  {
    hide AnswersInOrder, Fitted, Complete;
    if rounds != [] {
      RoundsAnswerInOrder(setting, base, hits, auto, rounds[..|rounds| - 1]);
    }
  }

  /** Every list a round was handed consists of whole blocks - each call answered at once, all
      of them and in order - if the prompt did and no call id is empty. */
  lemma HandedBlocks(setting: Setting, base: seq<Message>, hits: seq<Hit>, auto: seq<Handled>,
                     rounds: seq<Round>, n: nat)
    requires RoundsOk(setting, base, hits, auto, rounds) && n < |rounds|
    requires Blocks(base) && NonEmptyIds(base) && NamedCalls(rounds)
    ensures Blocks(rounds[n].handed)
  {
    hide Blocks, NonEmptyIds, Fitted, RoundsOk, AnswersInOrder;
    RoundsPrefix(setting, base, hits, auto, rounds, n);
    var before := rounds[..n];
    assert forall r | r in before :: r in rounds;
    RowsAreBlocks(setting, base, hits, auto, before);
    RoundsAnswerInOrder(setting, base, hits, auto, before);
    RowsNonEmptyIds(before);
    HandOverBlocks(setting, n, base, Rows(before), rounds[n].nudged);
  }

  lemma HandOverBlocks(setting: Setting, call: nat, base: seq<Message>, rows: seq<Message>, nudged: bool)
    requires Blocks(base) && Blocks(rows) && NonEmptyIds(base) && NonEmptyIds(rows)
    ensures Blocks(setting.Handed(call, base, rows, nudged))
  {
    hide Blocks, Fitted;
    var nudge := if nudged then [setting.Nudge()] else [];
    ToolFreeBlocks(nudge);
    BlocksAppend(base, rows);
    BlocksAppend(base + rows, nudge);
    FittedKeepsBlocks(setting.WindowAt(call), base + rows + nudge);
  }

  /** Stored memory is made of whole blocks after a turn exactly when the turn did not stop
      between storing a row that asks for tools and storing its last result. */
  lemma StoredBlocksIffAnswered(setting: Setting, base: seq<Message>, hits: seq<Hit>, auto: seq<Handled>,
                                rounds: seq<Round>, stored: seq<Message>)
    requires RoundsOk(setting, base, hits, auto, rounds) && Blocks(stored)
    ensures Blocks(stored + Rows(rounds)) <==> rounds == [] || Complete(rounds[|rounds| - 1])
  {
    hide Blocks, RoundsOk, RoundOk;
    if rounds == [] || Complete(rounds[|rounds| - 1]) {
      RowsAreBlocks(setting, base, hits, auto, rounds);
      BlocksAppend(stored, Rows(rounds));
    } else {
      UnansweredRun(setting, base, hits, auto, rounds, stored);
    }
  }

  lemma UnansweredRun(setting: Setting, base: seq<Message>, hits: seq<Hit>, auto: seq<Handled>,
                      rounds: seq<Round>, stored: seq<Message>)
    requires RoundsOk(setting, base, hits, auto, rounds) && Blocks(stored)
    requires rounds != [] && !Complete(rounds[|rounds| - 1])
    ensures !Blocks(stored + Rows(rounds))
  {
    hide Blocks, RoundsOk, RoundOk, Rows;
    var init, last := rounds[..|rounds| - 1], rounds[|rounds| - 1];
    RowsOfLast(rounds);
    RoundsPrefix(setting, base, hits, auto, rounds, |rounds| - 1);
    assert Blocks(Rows(init)) by { RowsAreBlocks(setting, base, hits, auto, init); }
    assert Blocks(stored + Rows(init)) by { BlocksAppend(stored, Rows(init)); }
    assert AnswersInOrder(last) by { RoundsAnswerInOrder(setting, base, hits, auto, rounds); }
    assert stored + Rows(rounds) == stored + Rows(init) + ([last.row] + ToolRows(last.handled));
    UnansweredIsNoBlock(stored + Rows(init), last.row, ToolRows(last.handled));
  }

  lemma RowsOfLast(rounds: seq<Round>)
    requires rounds != []
    ensures var last := rounds[|rounds| - 1];
            Rows(rounds) == Rows(rounds[..|rounds| - 1]) + ([last.row] + ToolRows(last.handled))
  {
  }

  lemma UnansweredIsNoBlock(a: seq<Message>, row: Message, answers: seq<Message>)
    requires Blocks(a) && !row.role.Tool? && |answers| < |Opens(row)|
    ensures !Blocks(a + ([row] + answers))
  {
    var whole := a + ([row] + answers);
    assert whole[|a|] == row && whole[|a|..] == [row] + answers;
    if Blocks(whole) {
      BlocksCut(whole, |a|);
    }
  }

  // --- Bounds ------------------------------------------------------------------------------------------

  lemma {:induction false} DispatchedUnderCap(log: seq<Handled>, cap: int, i: nat)
    requires LogOk(log, cap) && i < |log| && log[i].act.Dispatched?
    ensures log[i].index < cap
  {
    if i < |log| - 1 {
      DispatchedUnderCap(log[..|log| - 1], cap, i);
    }
  }

  /** Calls handled in order in one step: at most `cap` of them are dispatched. */
  lemma {:induction false} StepDispatches(handled: seq<Handled>, cap: nat)
    requires forall k | 0 <= k < |handled| :: handled[k].index == k
    requires forall k | 0 <= k < |handled| && handled[k].act.Dispatched? :: k < cap
    ensures TotalDispatches(handled) <= cap && TotalDispatches(handled) <= |handled|
  {
    if handled != [] {
      StepDispatches(handled[..|handled| - 1], cap);
    }
  }

  /** At most `cap` dispatches per round, plus the automatic search. `lost` is a call of the
      last round whose result row could not be stored. */
  lemma {:induction false} DispatchBound(auto: seq<Handled>, rounds: seq<Round>, lost: seq<Handled>, cap: nat)
    requires |auto| <= 1
    requires forall r | r in rounds :: AnswersInOrder(r)
    requires forall h | h in auto + LogOf(rounds) + lost && h.act.Dispatched? :: h.index < cap
    requires |lost| <= 1
    requires lost != [] ==> rounds != [] && lost[0].index == |rounds[|rounds| - 1].handled|
    ensures TotalDispatches(auto + LogOf(rounds) + lost) <= |rounds| * cap + 1
    decreases |rounds|
  {
    hide AnswersInOrder, TotalDispatches;
    var whole := auto + LogOf(rounds) + lost;
    if rounds == [] {
      assert whole == auto;
      AtMostOne(auto);
    } else {
      var init, last := rounds[..|rounds| - 1], rounds[|rounds| - 1];
      var front, step := auto + LogOf(init), last.handled + lost;
      assert whole == front + step;
      assert TotalDispatches(front) <= |init| * cap + 1 by {
        assert front == front + [];
        assert forall h | h in front + [] :: h in whole;
        assert forall r | r in init :: r in rounds;
        DispatchBound(auto, init, [], cap);
      }
      assert TotalDispatches(step) <= cap by {
        assert last in rounds;
        StepBound(last, lost, front, cap);
      }
      TotalDispatchesAppend(front, step);
      OneMore(|init|, cap);
    }
  }

  lemma OneMore(n: nat, cap: nat)
    ensures (n + 1) * cap == n * cap + cap
  {
  }

  lemma AtMostOne(auto: seq<Handled>)
    requires |auto| <= 1
    ensures TotalDispatches(auto) <= 1
  {
    if auto != [] {
      assert auto[..0] == [];
    }
  }

  lemma StepBound(last: Round, lost: seq<Handled>, front: seq<Handled>, cap: nat)
    requires AnswersInOrder(last) && |lost| <= 1 && (lost != [] ==> lost[0].index == |last.handled|)
    requires forall h | h in front + (last.handled + lost) && h.act.Dispatched? :: h.index < cap
    ensures TotalDispatches(last.handled + lost) <= cap
  {
    var step := last.handled + lost;
    forall k | 0 <= k < |step| && step[k].act.Dispatched? ensures k < cap {
      assert step[k] in front + step;
    }
    StepDispatches(step, cap);
  }

  // --- Stream and storage ----------------------------------------------------------------------------------

  /** Answer text a round sent to the reader: what the model streamed, and the fallback when
      that was blank and no tool was asked for. */
  function SpokenIn(r: Round): string { r.streamed + (if BlankAnswer(r) then r.row.content else "") }

  function Spoken(rounds: seq<Round>): string {
    if rounds == [] then "" else Spoken(rounds[..|rounds| - 1]) + SpokenIn(rounds[|rounds| - 1])
  }

  /** Assistant text a turn stored. */
  function Contents(rounds: seq<Round>): string {
    if rounds == [] then "" else Contents(rounds[..|rounds| - 1]) + rounds[|rounds| - 1].row.content
  }

  /** The reader saw exactly the stored text, except that a blank last round is stored as the
      fallback alone. */
  lemma {:induction false} SpokenIsStored(setting: Setting, base: seq<Message>, hits: seq<Hit>,
                                          auto: seq<Handled>, rounds: seq<Round>)
    requires RoundsOk(setting, base, hits, auto, rounds) && rounds != []
    ensures var init, last := rounds[..|rounds| - 1], rounds[|rounds| - 1];
            if BlankAnswer(last)
            then Blank(last.streamed) && last.row.content == setting.Fallback(last.row.sources)
                 && Spoken(rounds) == Contents(init) + (last.streamed + last.row.content)
            else Spoken(rounds) == Contents(rounds)
  {
    var init, last := rounds[..|rounds| - 1], rounds[|rounds| - 1];
    SpokenBefore(setting, base, hits, auto, init);
    assert last.streamed + "" == last.streamed;
  }

  lemma {:induction false} SpokenBefore(setting: Setting, base: seq<Message>, hits: seq<Hit>,
                                        auto: seq<Handled>, rounds: seq<Round>)
    requires RoundsOk(setting, base, hits, auto, rounds)
    requires forall r | r in rounds :: r.row.toolCalls != []
    ensures Spoken(rounds) == Contents(rounds)
  {
    hide Fitted;
    if rounds != [] {
      var init, last := rounds[..|rounds| - 1], rounds[|rounds| - 1];
      SpokenBefore(setting, base, hits, auto, init);
      assert last in rounds && last.streamed + "" == last.streamed;
    }
  }

  /** The sources stored with a round are a prefix of the sources gathered in the end. */
  lemma StoredSourcesArePrefix(setting: Setting, base: seq<Message>, hits: seq<Hit>, auto: seq<Handled>,
                               rounds: seq<Round>, n: nat)
    requires RoundsOk(setting, base, hits, auto, rounds) && n < |rounds|
    ensures rounds[n].row.sources <= Cited(hits, auto + LogOf(rounds))
  {
    hide Cited, RoundsOk, Fitted;
    RoundsPrefix(setting, base, hits, auto, rounds, n);
    var later := LogPrefix(rounds, n);
    CitedGrows(hits, auto + LogOf(rounds[..n]), later);
    assert auto + LogOf(rounds) == auto + LogOf(rounds[..n]) + later;
  }

  lemma {:induction false} LogPrefix(rounds: seq<Round>, n: nat) returns (later: seq<Handled>)
    requires n <= |rounds|
    ensures LogOf(rounds) == LogOf(rounds[..n]) + later
  {
    if n == |rounds| {
      assert rounds[..n] == rounds;
      later := [];
    } else {
      var init := rounds[..|rounds| - 1];
      var l := LogPrefix(init, n);
      assert init[..n] == rounds[..n];
      later := l + rounds[|rounds| - 1].handled;
    }
  }
}
