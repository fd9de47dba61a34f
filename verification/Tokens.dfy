/** Token counting and the trimmer that drops old turns until a list fits its budget. */
module Tokens {
  import opened Wrappers
  import opened Messages
  import opened ToolHelpers

  /** Any tokenizer, seen through its `count_messages`. */
  type Counter = seq<Message> -> int

  /** Taking a row out never makes a list dearer. */
  ghost predicate Monotone(count: Counter) {
    forall a, m, b :: count(a + b) <= count(a + [m] + b)
  }

  datatype TokenBudget = TokenBudget(maxTokens: int, reserveForReply: int) {
    function InputBudget(): int { maxTokens - reserveForReply }

    predicate Fits(used: int) { used <= InputBudget() }
  }

  // --- Trimming ----------------------------------------------------------------------

  function Lead(ms: seq<Message>, keepLeadingSystem: bool): seq<Message> {
    if keepLeadingSystem && ms != [] && ms[0].role.System? then [ms[0]] else []
  }

  function Body(ms: seq<Message>, keepLeadingSystem: bool): seq<Message> {
    ms[|Lead(ms, keepLeadingSystem)|..]
  }

  /** How many of the oldest body rows go: the fewest that make the rest fit, and all
      but the last row when nothing else fits. */
  function Drops(count: Counter, budget: TokenBudget, lead: seq<Message>, body: seq<Message>, from: nat): (d: nat)
    requires from < |body|
    ensures from <= d < |body|
    ensures d == |body| - 1 || budget.Fits(count(lead + body[d..]))
    ensures forall c | from <= c < d :: !budget.Fits(count(lead + body[c..]))
    decreases |body| - from
  {
    if from == |body| - 1 || budget.Fits(count(lead + body[from..])) then from
    else Drops(count, budget, lead, body, from + 1)
  }

  function Trimmed(count: Counter, budget: TokenBudget, ms: seq<Message>, keepLeadingSystem: bool): seq<Message> {
    var lead, body := Lead(ms, keepLeadingSystem), Body(ms, keepLeadingSystem);
    if body == [] then lead
    else KeepGrounded(lead + body[Drops(count, budget, lead, body, 0)..])
  }

  method TrimToBudget(count: Counter, budget: TokenBudget, messages: seq<Message>, keepLeadingSystem: bool)
    returns (kept: seq<Message>)
    ensures kept == Trimmed(count, budget, messages, keepLeadingSystem)
  {
    if messages == [] {
      return messages;
    }
    var leading: seq<Message> := [];
    var body := messages;
    if keepLeadingSystem && body[0].role.System? {
      leading, body := [body[0]], body[1..];
    }
    if body == [] {
      return leading;
    }
    var last, middle := body[|body| - 1], body[..|body| - 1];
    ghost var popped := 0;
    assert middle + [last] == body[0..];
    while middle != [] && !budget.Fits(count(leading + (middle + [last])))
      invariant 0 <= popped < |body|
      invariant middle + [last] == body[popped..]
      invariant Drops(count, budget, leading, body, popped) == Drops(count, budget, leading, body, 0)
      decreases |middle|
    {
      assert middle[1..] + [last] == (middle + [last])[1..];
      middle := middle[1..];
      popped := popped + 1;
    }
    assert |middle| == |body| - 1 - popped;
    kept := DropOrphanToolMessages(leading + (middle + [last]));
  }

  lemma {:induction false} KeepGroundedIsCheaper(count: Counter, ms: seq<Message>, tail: seq<Message>)
    requires Monotone(count)
    ensures count(KeepGrounded(ms) + tail) <= count(ms + tail)
  {
    if ms != [] {
      var init, last := ms[..|ms| - 1], ms[|ms| - 1];
      assert ms + tail == init + ([last] + tail);
      if Kept(last, Declared(init)) {
        KeepGroundedIsCheaper(count, init, [last] + tail);
        assert KeepGrounded(ms) + tail == KeepGrounded(init) + ([last] + tail);
      } else {
        KeepGroundedIsCheaper(count, init, tail);
        assert count(init + tail) <= count(init + [last] + tail);
        assert init + [last] + tail == ms + tail;
        assert KeepGrounded(ms) == KeepGrounded(init);
      }
    }
  }

  /** The outcome every budget path promises: it fits, or nothing is left to drop but a
      leading system row and the row being answered. */
  predicate Bounded(count: Counter, budget: TokenBudget, out: seq<Message>, last: Message) {
    budget.Fits(count(out)) ||
    (|out| <= 2 && forall i | 0 <= i < |out| :: out[i] == last || (i == 0 && out[i].role.System?))
  }

  lemma {:induction false} ToolFreeDeclaresNothing(ms: seq<Message>)
    requires ToolFree(ms)
    ensures KeepGrounded(ms) == ms && Declared(ms) == {}
  {
    if ms != [] {
      var init, last := ms[..|ms| - 1], ms[|ms| - 1];
      assert ms == init + [last] && last in ms;
      assert forall m | m in init :: m in ms;
      ToolFreeDeclaresNothing(init);
    }
  }

  /** With only the last row left, the orphan pass keeps the leading system row. */
  lemma KeepGroundedOfFew(lead: seq<Message>, last: Message)
    requires lead == [] || (|lead| == 1 && lead[0].role.System?)
    ensures KeepGrounded(lead + [last]) in {lead, lead + [last]}
  {
    var kept := lead + [last];
    assert kept[..|kept| - 1] == lead;
    ToolFreeDeclaresNothing(lead);
    assert lead + [] == lead;
  }

  lemma TrimmedBounded(count: Counter, budget: TokenBudget, ms: seq<Message>, keepLeadingSystem: bool)
    requires Monotone(count) && ms != []
    ensures Bounded(count, budget, Trimmed(count, budget, ms, keepLeadingSystem), ms[|ms| - 1])
  {
    var lead, body := Lead(ms, keepLeadingSystem), Body(ms, keepLeadingSystem);
    if body != [] {
      var d := Drops(count, budget, lead, body, 0);
      var kept := lead + body[d..];
      if budget.Fits(count(kept)) {
        KeepGroundedIsCheaper(count, kept, []);
        assert KeepGrounded(kept) + [] == KeepGrounded(kept) && kept + [] == kept;
      } else {
        assert body[d..] == [ms[|ms| - 1]];
        KeepGroundedOfFew(lead, ms[|ms| - 1]);
      }
    }
  }

  /** Trimming drops the oldest rows behind a leading system row, the fewest that make the rest fit but
      never the last, and then every tool row whose request went. */
  lemma TrimmedGreedily(count: Counter, budget: TokenBudget, ms: seq<Message>, keepLeadingSystem: bool)
    returns (lead: seq<Message>, body: seq<Message>, d: nat)
    ensures ms == lead + body && (lead == if keepLeadingSystem && ms != [] && ms[0].role.System? then [ms[0]] else [])
    ensures body == [] ==> Trimmed(count, budget, ms, keepLeadingSystem) == lead
    ensures body != [] ==>
              && d < |body| && Trimmed(count, budget, ms, keepLeadingSystem) == KeepGrounded(lead + body[d..])
              && (d == |body| - 1 || count(lead + body[d..]) <= budget.maxTokens - budget.reserveForReply)
              && forall c | 0 <= c < d :: count(lead + body[c..]) > budget.maxTokens - budget.reserveForReply
  {
    lead, body := Lead(ms, keepLeadingSystem), Body(ms, keepLeadingSystem);
    d := if body == [] then 0 else Drops(count, budget, lead, body, 0);
  }

  /** Popping is minimal: had one row fewer gone, the list would still overflow. */
  lemma TrimmedDropsFewest(count: Counter, budget: TokenBudget, ms: seq<Message>, keepLeadingSystem: bool, c: nat)
    requires Body(ms, keepLeadingSystem) != []
    requires c < Drops(count, budget, Lead(ms, keepLeadingSystem), Body(ms, keepLeadingSystem), 0)
    ensures !budget.Fits(count(Lead(ms, keepLeadingSystem) + Body(ms, keepLeadingSystem)[c..]))
  {
  }

  // --- Trimming whole blocks -------------------------------------------------------------

  lemma {:induction false} KeepGroundedAppend(a: seq<Message>, b: seq<Message>)
    requires OrphanFree(b) && NonEmptyIds(b)
    ensures KeepGrounded(a + b) == KeepGrounded(a) + b
  {
    if b == [] {
      assert a + b == a;
    } else {
      var init, last := b[..|b| - 1], b[|b| - 1];
      assert (a + b)[..|a + b| - 1] == a + init;
      assert forall m | m in init :: m in b;
      KeepGroundedAppend(a, init);
      DeclaredAppend(a, init);
      assert last in b;
      assert KeepGrounded(a) + init + [last] == KeepGrounded(a) + b;
    }
  }

  /** Tool rows right after a list that declares nothing are all orphans. */
  lemma {:induction false} KeepGroundedDropsRemnant(lead: seq<Message>, remnant: seq<Message>)
    requires Declared(lead) == {} && forall j | 0 <= j < |remnant| :: remnant[j].role.Tool?
    ensures KeepGrounded(lead + remnant) == KeepGrounded(lead) && Declared(lead + remnant) == {}
  {
    if remnant == [] {
      assert lead + remnant == lead;
    } else {
      var init := remnant[..|remnant| - 1];
      KeepGroundedDropsRemnant(lead, init);
      assert (lead + remnant)[..|lead + remnant| - 1] == lead + init;
    }
  }

  /** First non-tool row at or after `d`. */
  function SkipTools(ms: seq<Message>, d: nat): (e: nat)
    requires d <= |ms|
    ensures d <= e <= |ms|
    ensures forall j | d <= j < e :: ms[j].role.Tool?
    ensures e < |ms| ==> !ms[e].role.Tool?
    decreases |ms| - d
  {
    if d < |ms| && ms[d].role.Tool? then SkipTools(ms, d + 1) else d
  }

  /** Where the surviving body starts once the remnant of a cut block is gone too. */
  function KeptFrom(count: Counter, budget: TokenBudget, lead: seq<Message>, body: seq<Message>): (e: nat)
    requires body != []
    ensures e <= |body|
  {
    SkipTools(body, Drops(count, budget, lead, body, 0))
  }

  lemma DropRemnantOfBlock(lead: seq<Message>, body: seq<Message>, d: nat)
    requires ToolFree(lead) && Blocks(body) && NonEmptyIds(body) && d <= |body|
    ensures Blocks(body[SkipTools(body, d)..])
    ensures KeepGrounded(lead + body[d..]) == lead + body[SkipTools(body, d)..]
  {
    hide Blocks, OrphanFree, KeepGrounded, Declared;
    var e := SkipTools(body, d);
    BlocksCut(body, e);
    var remnant, rest := body[d..e], body[e..];
    assert lead + body[d..] == (lead + remnant) + rest;
    ToolFreeDeclaresNothing(lead);
    KeepGroundedDropsRemnant(lead, remnant);
    assert OrphanFree(rest) by { BlocksOrphanFree(rest); }
    assert NonEmptyIds(rest) by { assert forall m | m in rest :: m in body; }
    KeepGroundedAppend(lead + remnant, rest);
  }

  /** What trimming does to whole blocks, exactly: popping stops inside a block, and the
      orphan pass then removes what is left of that block. */
  lemma TrimmedBlocksExactly(count: Counter, budget: TokenBudget, ms: seq<Message>, keepLeadingSystem: bool)
    requires Blocks(ms) && NonEmptyIds(ms) && Body(ms, keepLeadingSystem) != []
    ensures var lead, body := Lead(ms, keepLeadingSystem), Body(ms, keepLeadingSystem);
            var e := KeptFrom(count, budget, lead, body);
            Blocks(body[e..]) && Trimmed(count, budget, ms, keepLeadingSystem) == lead + body[e..]
  {
    var lead, body := Lead(ms, keepLeadingSystem), Body(ms, keepLeadingSystem);
    assert Blocks(body) by { BlocksCut(ms, |lead|); }
    assert NonEmptyIds(body) by { assert forall m | m in body :: m in ms; }
    DropRemnantOfBlock(lead, body, Drops(count, budget, lead, body, 0));
  }

  lemma LeadBlocks(ms: seq<Message>, keepLeadingSystem: bool)
    ensures ToolFree(Lead(ms, keepLeadingSystem)) && Blocks(Lead(ms, keepLeadingSystem))
  {
    ToolFreeBlocks(Lead(ms, keepLeadingSystem));
  }

  lemma TrimmedKeepsBlocks(count: Counter, budget: TokenBudget, ms: seq<Message>, keepLeadingSystem: bool)
    requires Blocks(ms) && NonEmptyIds(ms)
    ensures Blocks(Trimmed(count, budget, ms, keepLeadingSystem))
  {
    LeadBlocks(ms, keepLeadingSystem);
    var lead, body := Lead(ms, keepLeadingSystem), Body(ms, keepLeadingSystem);
    if body != [] {
      TrimmedBlocksExactly(count, budget, ms, keepLeadingSystem);
      BlocksAppend(lead, body[KeptFrom(count, budget, lead, body)..]);
    }
  }

  /** Dropping from the left is monotone too. */
  lemma {:induction false} SuffixIsCheaper(count: Counter, lead: seq<Message>, body: seq<Message>, c: nat, a: nat)
    requires Monotone(count) && c <= a <= |body|
    ensures count(lead + body[a..]) <= count(lead + body[c..])
    decreases a - c
  {
    if c < a {
      SuffixIsCheaper(count, lead, body, c + 1, a);
      assert lead + body[c..] == lead + [body[c]] + body[c + 1..];
    }
  }

  /** The row after the popped ones is in the last block exactly when that block fits. */
  lemma KeptFromLastBlock(count: Counter, budget: TokenBudget, lead: seq<Message>, body: seq<Message>, a: nat)
    requires Monotone(count) && a < |body| && !body[a].role.Tool?
    requires forall j | a < j < |body| :: body[j].role.Tool?
    ensures var fits := a == |body| - 1 || budget.Fits(count(lead + body[a..]));
            if fits then KeptFrom(count, budget, lead, body) <= a
            else KeptFrom(count, budget, lead, body) == |body|
  {
    var d := Drops(count, budget, lead, body, 0);
    if d < a {
      SuffixIsCheaper(count, lead, body, d, a);
    }
  }

  /** The last row that declares an id, -1 when none does. */
  function LatestDeclarer(ms: seq<Message>, id: string): (i: int)
    ensures -1 <= i < |ms|
    ensures i >= 0 ==> id in Declares(ms[i])
    ensures forall j | i < j < |ms| :: id !in Declares(ms[j])
  {
    if ms == [] then -1
    else if id in Declares(ms[|ms| - 1]) then |ms| - 1
    else LatestDeclarer(ms[..|ms| - 1], id)
  }

  /** The row a trim is about survives exactly when it is no tool row, or its latest requester still
      fits together with everything after it. */
  predicate LastRowFits(count: Counter, budget: TokenBudget, lead: seq<Message>, body: seq<Message>)
    requires body != []
  {
    var last := body[|body| - 1];
    last.role.Tool? ==>
      && last.toolCallId.Some? && last.toolCallId.value != ""
      && var i := LatestDeclarer(body, last.toolCallId.value);
         i >= 0 && budget.Fits(count(lead + body[i..]))
  }

  lemma DeclarerSurvivesIff(count: Counter, budget: TokenBudget, lead: seq<Message>, body: seq<Message>, i: nat)
    requires Monotone(count) && i < |body| - 1
    ensures Drops(count, budget, lead, body, 0) <= i <==> budget.Fits(count(lead + body[i..]))
  {
    hide Monotone;
    var d := Drops(count, budget, lead, body, 0);
    if d <= i {
      SuffixIsCheaper(count, lead, body, d, i);
    }
  }

  lemma DeclaredInSuffix(lead: seq<Message>, body: seq<Message>, d: nat, id: string)
    requires ToolFree(lead) && d <= |body|
    ensures id in Declared(lead + body[d..]) <==> d <= LatestDeclarer(body, id)
  {
    var i := LatestDeclarer(body, id);
    var ms := lead + body[d..];
    DeclaredMember(ms, id);
    ToolFreeDeclaresNothing(lead);
    DeclaredMember(lead, id);
    if d <= i {
      assert ms[|lead| + i - d] == body[i];
    }
    if m :| m in ms && id in Declares(m) {
      var k :| 0 <= k < |ms| && ms[k] == m;
      if k < |lead| {
        assert m in lead;
      } else {
        assert m == body[d + k - |lead|];
      }
    }
  }

  /** A row dropped at the end leaves no equal row behind. */
  lemma DroppedLeavesNoTwin(init: seq<Message>, last: Message)
    requires last.role.Tool?
    ensures var out := KeepGrounded(init + [last]);
            out != [] && out[|out| - 1] == last <==> Kept(last, Declared(init))
  {
    hide Declared;
    assert (init + [last])[..|init|] == init;
    var kept := KeepGrounded(init);
    KeepGroundedOrphanFree(init);
    KeepGroundedDeclares(init);
    if kept != [] && kept[|kept| - 1] == last && !Kept(last, Declared(init)) {
      LastIsGrounded(kept);
      DeclaredShrinks(kept);
    }
  }

  lemma LastIsGrounded(ms: seq<Message>)
    requires OrphanFree(ms) && NonEmptyIds(ms) && ms != []
    ensures Kept(ms[|ms| - 1], Declared(ms[..|ms| - 1]))
  {
    assert ms[|ms| - 1] in ms;
  }

  lemma DeclaredShrinks(ms: seq<Message>)
    requires ms != []
    ensures Declared(ms[..|ms| - 1]) <= Declared(ms)
  {
  }

  /** The documentation says the last row always stays. In any list it stays exactly when it is no
      tool row, or the latest row that requested it fits together with all rows after it. */
  lemma TrimmedLastRow(count: Counter, budget: TokenBudget, ms: seq<Message>, keepLeadingSystem: bool)
    requires Monotone(count) && Body(ms, keepLeadingSystem) != []
    ensures var out := Trimmed(count, budget, ms, keepLeadingSystem);
            out != [] && out[|out| - 1] == ms[|ms| - 1]
            <==> LastRowFits(count, budget, Lead(ms, keepLeadingSystem), Body(ms, keepLeadingSystem))
  {
    hide Monotone, Declared, Drops, KeepGrounded;
    var lead, body := Lead(ms, keepLeadingSystem), Body(ms, keepLeadingSystem);
    var d := Drops(count, budget, lead, body, 0);
    var last := body[|body| - 1];
    var init := lead + body[d..|body| - 1];
    assert lead + body[d..] == init + [last];
    if last.role.Tool? {
      DroppedLeavesNoTwin(init, last);
      if last.toolCallId.Some? {
        LastRowsDeclarer(count, budget, lead, body, last.toolCallId.value);
      }
    } else {
      NonToolStays(init, last);
    }
  }

  lemma NonToolStays(init: seq<Message>, last: Message)
    requires !last.role.Tool?
    ensures var out := KeepGrounded(init + [last]); out != [] && out[|out| - 1] == last
  {
    assert (init + [last])[..|init|] == init;
  }

  lemma LastRowsDeclarer(count: Counter, budget: TokenBudget, lead: seq<Message>, body: seq<Message>, id: string)
    requires Monotone(count) && ToolFree(lead) && body != [] && body[|body| - 1].role.Tool?
    ensures var d, i := Drops(count, budget, lead, body, 0), LatestDeclarer(body, id);
            id in Declared(lead + body[d..|body| - 1]) <==> i >= 0 && budget.Fits(count(lead + body[i..]))
  {
    hide Monotone, Declared, Drops;
    var d, n := Drops(count, budget, lead, body, 0), |body| - 1;
    var i := LatestDeclarer(body, id);
    DeclaredInSuffix(lead, body[..n], d, id);
    assert body[..n][d..] == body[d..n];
    assert i == LatestDeclarer(body[..n], id);
    if i >= 0 {
      DeclarerSurvivesIff(count, budget, lead, body, i);
    }
  }

  /** For whole blocks that is the last block, and when it does not fit nothing but the leading
      system row is left. */
  lemma TrimmedLastBlock(count: Counter, budget: TokenBudget, ms: seq<Message>, keepLeadingSystem: bool,
                       lead: seq<Message>, body: seq<Message>, a: nat)
    requires Monotone(count) && Blocks(ms) && NonEmptyIds(ms)
    requires lead == Lead(ms, keepLeadingSystem) && body == Body(ms, keepLeadingSystem)
    requires a < |body| && !body[a].role.Tool? && forall j | a < j < |body| :: body[j].role.Tool?
    ensures var out := Trimmed(count, budget, ms, keepLeadingSystem);
            if a == |body| - 1 || budget.Fits(count(lead + body[a..]))
            then out != [] && out[|out| - 1] == ms[|ms| - 1]
            else out == lead
  {
    hide Blocks, NonEmptyIds, Monotone, Trimmed, KeptFrom, Drops;
    TrimmedBlocksExactly(count, budget, ms, keepLeadingSystem);
    KeptFromLastBlock(count, budget, lead, body, a);
    var e := KeptFrom(count, budget, lead, body);
    LastOfSuffix(lead, body, e);
  }

  lemma LastOfSuffix(lead: seq<Message>, body: seq<Message>, e: nat)
    requires e <= |body|
    ensures e < |body| ==> (lead + body[e..])[|lead + body[e..]| - 1] == body[|body| - 1]
    ensures e == |body| ==> lead + body[e..] == lead
  {
  }

  /** A concrete list whose last row is dropped, against the documented promise. */
  lemma TrimmedCanLoseTheLastRow()
    ensures exists count: Counter, budget: TokenBudget, ms: seq<Message> ::
              Monotone(count) && Blocks(ms) && ms != [] && Trimmed(count, budget, ms, true) == []
  {
    hide Declared, KeepGrounded, OrphanFree, Blocks;
    var count: Counter := (ms: seq<Message>) => |ms|;
    var call := ToolCall("c", "web_fetch", Arguments("{}", "{}"));
    var ms := [Message(Assistant, "", toolCalls := [call]), Message(Tool, "", toolCallId := Some("c"))];
    assert Answers(ms[1], call);
    BlockOfOne(ms[0], [ms[1]]);
    assert [ms[0]] + [ms[1]] == ms;
    assert Body(ms, true) == ms && Lead(ms, true) == [];
    assert !TokenBudget(1, 0).Fits(count([] + ms[0..]));
    assert |ms[0..]| == 2;
    TrimmedLastBlock(count, TokenBudget(1, 0), ms, true, [], ms, 0);
    assert Trimmed(count, TokenBudget(1, 0), ms, true) == [];
  }
}
