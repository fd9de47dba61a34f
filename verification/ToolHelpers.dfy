/** The tool-pairing helpers of the chat stack: dropping orphaned tool rows, cutting a
    history without separating a call from its results, compacting payloads. */
module ToolHelpers {
  import opened Wrappers
  import opened Messages

  // --- Dropping orphans ----------------------------------------------------------

  /** What a strict provider accepts after rows that introduced `known`. */
  predicate Kept(m: Message, known: set<string>) {
    m.role.Tool? ==> m.toolCallId.Some? && m.toolCallId.value != "" && m.toolCallId.value in known
  }

  /** The rows of `ms` that survive: each row is judged by the rows of `ms` before it. */
  function KeepGrounded(ms: seq<Message>): seq<Message> {
    if ms == [] then []
    else
      var init, last := ms[..|ms| - 1], ms[|ms| - 1];
      KeepGrounded(init) + (if Kept(last, Declared(init)) then [last] else [])
  }

  method DropOrphanToolMessages(messages: seq<Message>) returns (out: seq<Message>)
    ensures out == KeepGrounded(messages)
  {
    var knownIds: set<string> := {};
    out := [];
    for i := 0 to |messages|
      invariant knownIds == Declared(messages[..i])
      invariant out == KeepGrounded(messages[..i])
    {
      var msg := messages[i];
      assert messages[..i + 1][..i] == messages[..i];
      if msg.role.Assistant? && msg.toolCalls != [] {
        knownIds := knownIds + set tc <- msg.toolCalls :: tc.id;
        out := out + [msg];
      } else if msg.role.Tool? {
        if msg.toolCallId.Some? && msg.toolCallId.value != "" && msg.toolCallId.value in knownIds {
          out := out + [msg];
        }
      } else {
        out := out + [msg];
      }
    }
    assert messages[..|messages|] == messages;
  }

  /** Dropping never removes a declaration, so one pass is enough. */
  lemma {:induction false} KeepGroundedDeclares(ms: seq<Message>)
    ensures Declared(KeepGrounded(ms)) == Declared(ms)
  {
    if ms != [] {
      var init, last := ms[..|ms| - 1], ms[|ms| - 1];
      KeepGroundedDeclares(init);
      var kept := KeepGrounded(init);
      if Kept(last, Declared(init)) {
        assert (kept + [last])[..|kept|] == kept;
      } else {
        assert kept + [] == kept;
      }
    }
  }

  lemma {:induction false} KeepGroundedOrphanFree(ms: seq<Message>)
    ensures OrphanFree(KeepGrounded(ms)) && NonEmptyIds(KeepGrounded(ms))
  {
    if ms != [] {
      var init, last := ms[..|ms| - 1], ms[|ms| - 1];
      KeepGroundedOrphanFree(init);
      KeepGroundedDeclares(init);
      var kept := KeepGrounded(init);
      if Kept(last, Declared(init)) {
        assert (kept + [last])[..|kept|] == kept;
      } else {
        assert kept + [] == kept;
      }
    }
  }

  /** Dropping is the identity exactly on orphan-free lists with non-empty tool ids. */
  lemma {:induction false} KeepGroundedIdentity(ms: seq<Message>)
    ensures |KeepGrounded(ms)| <= |ms|
    ensures KeepGrounded(ms) == ms <==> OrphanFree(ms) && NonEmptyIds(ms)
  {
    if ms != [] {
      var init, last := ms[..|ms| - 1], ms[|ms| - 1];
      KeepGroundedIdentity(init);
      assert ms == init + [last];
      var kept := KeepGrounded(init);
      if Kept(last, Declared(init)) {
        if kept + [last] == ms {
          assert kept == (kept + [last])[..|kept|];
        }
      } else {
        assert |KeepGrounded(ms)| < |ms|;
        assert last in ms;
      }
    }
  }

  /** The row is no tool row, or answers by a non-empty id a call of an earlier row. */
  predicate Stays(ms: seq<Message>, i: nat)
    requires i < |ms|
  {
    ms[i].role.Tool? ==>
      && ms[i].toolCallId.Some? && ms[i].toolCallId.value != ""
      && exists j | 0 <= j < i :: ms[i].toolCallId.value in Declares(ms[j])
  }

  lemma StaysNext(ms: seq<Message>, n: nat)
    requires |ms| == n + 1
    ensures Stays(ms, n) <==> Kept(ms[n], Declared(ms[..n]))
    ensures forall i: nat | i < n :: Stays(ms[..n], i) <==> Stays(ms, i)
  {
    hide Declares;
    if ms[n].toolCallId.Some? {
      DeclaredEarlier(ms, n, ms[n].toolCallId.value);
    }
    forall i: nat | i < n ensures Stays(ms[..n], i) <==> Stays(ms, i) {
      assert ms[..n][i] == ms[i] && forall j | 0 <= j < i :: ms[..n][j] == ms[j];
    }
  }

  /** The rows kept are exactly those that stay, in their order. */
  lemma {:induction false} KeptRows(ms: seq<Message>) returns (kept: seq<nat>)
    ensures |KeepGrounded(ms)| == |kept|
    ensures forall k | 0 <= k < |kept| :: kept[k] < |ms| && KeepGrounded(ms)[k] == ms[kept[k]]
    ensures forall k, l | 0 <= k < l < |kept| :: kept[k] < kept[l]
    ensures forall i: nat | i < |ms| :: i in kept <==> Stays(ms, i)
  {
    hide Stays, Kept, Declared;
    if ms == [] {
      kept := [];
    } else {
      var n := |ms| - 1;
      var init := KeptRows(ms[..n]);
      StaysNext(ms, n);
      kept := if Stays(ms, n) then init + [n] else init;
    }
  }

  lemma DeclaredEarlier(ms: seq<Message>, n: nat, id: string)
    requires n < |ms|
    ensures id in Declared(ms[..n]) <==> exists j | 0 <= j < n :: id in Declares(ms[j])
  {
    DeclaredMember(ms[..n], id);
    if j :| 0 <= j < n && id in Declares(ms[j]) {
      assert ms[..n][j] in ms[..n];
    }
  }

  // --- Pair-safe splitting ---------------------------------------------------------

  /** Cutting in front of row `b` leaves a tool row on the right whose id no row on the
      right introduces, or a tool row at the very front. */
  predicate Breaks(ms: seq<Message>, b: nat)
    requires b < |ms|
  {
    ms[b].role.Tool? ||
    exists j | b <= j < |ms| ::
      ms[j].role.Tool? && ms[j].toolCallId.Some? && ms[j].toolCallId.value !in Declared(ms[b..])
  }

  /** Where the split lands: the largest harmless cut at or left of the target. */
  function CutPoint(ms: seq<Message>, keepRecent: int): (b: nat)
    ensures b <= |ms|
    ensures keepRecent <= 0 ==> b == |ms|
    ensures keepRecent > 0 ==> b <= |ms| - keepRecent || b == 0
    ensures 0 < b < |ms| ==> !Breaks(ms, b)
    ensures forall c | b < c && c <= |ms| - keepRecent && c < |ms| :: Breaks(ms, c)
  {
    if keepRecent <= 0 then |ms|
    else if |ms| <= keepRecent then 0
    else SafeCutAtOrLeft(ms, |ms| - keepRecent)
  }

  function SafeCutAtOrLeft(ms: seq<Message>, target: nat): (b: nat)
    requires target < |ms|
    ensures b <= target
    ensures b > 0 ==> !Breaks(ms, b)
    ensures forall c | b < c <= target :: Breaks(ms, c)
  {
    if target == 0 || !Breaks(ms, target) then target else SafeCutAtOrLeft(ms, target - 1)
  }

  method SplitBreaksToolPair(messages: seq<Message>, boundary: nat) returns (r: bool)
    requires boundary < |messages|
    ensures r <==> Breaks(messages, boundary)
  {
    if messages[boundary].role.Tool? {
      return true;
    }
    var recent := messages[boundary..];
    var introduced: set<string> := {};
    for i := 0 to |recent|
      invariant introduced == Declared(recent[..i])
    {
      assert recent[..i + 1][..i] == recent[..i];
      if recent[i].role.Assistant? && recent[i].toolCalls != [] {
        introduced := introduced + set tc <- recent[i].toolCalls :: tc.id;
      }
    }
    assert recent[..|recent|] == recent;
    for i := 0 to |recent|
      invariant forall j | 0 <= j < i && recent[j].role.Tool? && recent[j].toolCallId.Some? ::
          recent[j].toolCallId.value in introduced
    {
      if recent[i].role.Tool? && recent[i].toolCallId.Some? && recent[i].toolCallId.value !in introduced {
        assert messages[boundary + i] == recent[i];
        return true;
      }
    }
    assert forall j | boundary <= j < |messages| :: messages[j] == recent[j - boundary];
    return false;
  }

  method PairSafeRecentSplit(messages: seq<Message>, keepRecent: int)
    returns (older: seq<Message>, recent: seq<Message>)
    ensures older + recent == messages
    ensures |older| == CutPoint(messages, keepRecent)
    ensures older == messages[..CutPoint(messages, keepRecent)]
    ensures recent == messages[CutPoint(messages, keepRecent)..]
  {
    if keepRecent <= 0 {
      return messages, [];
    }
    if |messages| <= keepRecent {
      return [], messages;
    }
    var boundary := |messages| - keepRecent;
    var breaks := SplitBreaksToolPair(messages, boundary);
    while boundary > 0 && breaks
      invariant 0 <= boundary < |messages|
      invariant breaks <==> Breaks(messages, boundary)
      invariant SafeCutAtOrLeft(messages, boundary) == CutPoint(messages, keepRecent)
    {
      boundary := boundary - 1;
      breaks := SplitBreaksToolPair(messages, boundary);
    }
    return messages[..boundary], messages[boundary..];
  }

  /** In whole blocks every tool row of a suffix is introduced inside the suffix,
      unless the suffix starts with a tool row. */
  lemma BlocksBreakOnlyAtToolRows(ms: seq<Message>, b: nat)
    requires Blocks(ms) && b < |ms|
    ensures Breaks(ms, b) <==> ms[b].role.Tool?
  {
    hide Blocks, OrphanFree;
    if !ms[b].role.Tool? {
      BlocksCut(ms, b);
      var recent := ms[b..];
      BlocksOrphanFree(recent);
      OrphanFreeMeansDeclaredEarlier(recent);
      forall j | b <= j < |ms| && ms[j].role.Tool? && ms[j].toolCallId.Some?
        ensures ms[j].toolCallId.value in Declared(recent)
      {
        assert ms[j] == recent[j - b];
        DeclaredMember(recent, ms[j].toolCallId.value);
      }
    }
  }

  /** Both halves of a split of whole blocks are whole blocks, even when call ids repeat. */
  lemma SplitKeepsBlocks(ms: seq<Message>, keepRecent: int)
    requires Blocks(ms)
    ensures Blocks(ms[..CutPoint(ms, keepRecent)]) && Blocks(ms[CutPoint(ms, keepRecent)..])
  {
    var b := CutPoint(ms, keepRecent);
    if 0 < b < |ms| {
      BlocksBreakOnlyAtToolRows(ms, b);
    }
    if b == 0 {
      assert ms[..0] == [] && ms[0..] == ms;
    } else {
      BlocksCut(ms, b);
    }
  }

  /** A run of tool rows inside whole blocks is shorter than the calls that opened it. */
  lemma {:induction false} ToolRunWithinOneBlock(ms: seq<Message>, b: nat, t: nat)
    requires Blocks(ms) && b <= t < |ms| && !ms[b].role.Tool?
    requires forall c | b < c <= t :: ms[c].role.Tool?
    ensures t - b <= |Opens(ms[b])|
    decreases |ms|
  {
    BlocksCut(ms, b);
    var recent := ms[b..];
    var answers, rest := BlocksUncons(recent);
    if rest != [] {
      assert rest[0] == recent[1 + |answers|] == ms[b + 1 + |answers|];
      var a, r := BlocksUncons(rest);
    }
  }

  /** The cut moves left by less than one block: past the results of one row at most. */
  lemma SplitMovesLessThanOneBlock(ms: seq<Message>, keepRecent: int)
    requires Blocks(ms) && 0 < keepRecent < |ms|
    ensures var b := CutPoint(ms, keepRecent);
            |ms| - keepRecent - b <= |Opens(ms[b])|
  {
    var b, t := CutPoint(ms, keepRecent), |ms| - keepRecent;
    forall c | b < c <= t ensures ms[c].role.Tool? {
      BlocksBreakOnlyAtToolRows(ms, c);
    }
    if b > 0 {
      BlocksBreakOnlyAtToolRows(ms, b);
    } else {
      var a, r := BlocksUncons(ms);
    }
    ToolRunWithinOneBlock(ms, b, t);
  }

  /** No id is declared by two different rows. */
  predicate DistinctDeclarations(ms: seq<Message>) {
    forall i, j | 0 <= i < j < |ms| :: Declares(ms[i]) !! Declares(ms[j])
  }

  /** Row `j`, right of the cut, answers a call that row `i` declared left of it; on the right that
      id is declared only later, by row `k`. */
  predicate Straddles(ms: seq<Message>, b: nat, i: nat, j: nat, k: nat) {
    && i < b <= j < k < |ms|
    && ms[j].role.Tool? && ms[j].toolCallId.Some?
    && ms[j].toolCallId.value in Declares(ms[i]) && ms[j].toolCallId.value in Declares(ms[k])
    && forall m | b <= m < j :: ms[j].toolCallId.value !in Declares(ms[m])
  }

  lemma DeclaredOnTheRight(ms: seq<Message>, b: nat, j: nat) returns (k: nat)
    requires b <= j < |ms| && !Breaks(ms, b) && ms[j].role.Tool? && ms[j].toolCallId.Some?
    ensures b <= k < |ms| && ms[j].toolCallId.value in Declares(ms[k])
  {
    var id, recent := ms[j].toolCallId.value, ms[b..];
    DeclaredMember(recent, id);
    var m :| m in recent && id in Declares(m);
    k :| b <= k < |ms| && ms[k] == m;
  }

  lemma DeclaredBefore(ms: seq<Message>, j: nat) returns (i: nat)
    requires OrphanFree(ms) && j < |ms| && ms[j].role.Tool?
    ensures ms[j].toolCallId.Some? && i < j && ms[j].toolCallId.value in Declares(ms[i])
  {
    OrphanFreeMeansDeclaredEarlier(ms);
    i :| 0 <= i < j && ms[i].role.Assistant? && ms[j].toolCallId.value in Declares(ms[i]);
  }

  lemma UngroundedStraddles(ms: seq<Message>, b: nat, j: nat)
    requires OrphanFree(ms) && b <= j < |ms| && !Breaks(ms, b) && ms[j].role.Tool?
    requires ms[j].toolCallId.Some? ==> forall m | b <= m < j :: ms[j].toolCallId.value !in Declares(ms[m])
    ensures exists i: nat, k: nat :: Straddles(ms, b, i, j, k)
  {
    hide OrphanFree, Declared, Breaks;
    var i := DeclaredBefore(ms, j);
    var k := DeclaredOnTheRight(ms, b, j);
    assert Straddles(ms, b, i, j, k);
  }

  /** A split of an orphan-free history leaves an orphan on the right exactly when an id is
      declared left of the cut, answered right of it, and declared again only after that. */
  lemma SplitOrphansIff(ms: seq<Message>, keepRecent: int)
    requires OrphanFree(ms)
    ensures var b := CutPoint(ms, keepRecent);
            !OrphanFree(ms[b..]) <==> exists i: nat, j: nat, k: nat :: Straddles(ms, b, i, j, k)
  {
    hide OrphanFree, Declared, Breaks;
    var b := CutPoint(ms, keepRecent);
    var recent := ms[b..];
    OrphanFreeMeansDeclaredEarlier(recent);
    if !OrphanFree(recent) {
      assert b == 0 ==> recent == ms;
      var j :| 0 <= j < |recent| && recent[j].role.Tool?
               && !(recent[j].toolCallId.Some?
                    && exists i | 0 <= i < j ::
                         recent[i].role.Assistant? && recent[j].toolCallId.value in Declares(recent[i]));
      forall m | b <= m < b + j && ms[b + j].toolCallId.Some? ensures ms[b + j].toolCallId.value !in Declares(ms[m]) {
        assert ms[m] == recent[m - b];
      }
      UngroundedStraddles(ms, b, b + j);
    }
    if i: nat, j: nat, k: nat :| Straddles(ms, b, i, j, k) {
      assert recent[j - b] == ms[j];
      assert forall m | 0 <= m < j - b :: recent[m] == ms[b + m];
    }
  }

  /** So splits of a history are safe, wherever they are asked for, exactly when no boundary that
      passes the check is straddled like that. */
  lemma SplitAlwaysSafeIff(ms: seq<Message>)
    requires OrphanFree(ms)
    ensures (forall keepRecent: int :: OrphanFree(ms[CutPoint(ms, keepRecent)..]))
            <==> forall b: nat, i: nat, j: nat, k: nat | b < |ms| && Straddles(ms, b, i, j, k) :: Breaks(ms, b)
  {
    hide OrphanFree, Breaks, Straddles;
    if b: nat, i: nat, j: nat, k: nat :| b < |ms| && Straddles(ms, b, i, j, k) && !Breaks(ms, b) {
      assert 0 < b < |ms| by { StraddledIsInside(ms, b, i, j, k); }
      assert CutPoint(ms, |ms| - b) == b;
      SplitOrphansIff(ms, |ms| - b);
    } else {
      forall keepRecent: int ensures OrphanFree(ms[CutPoint(ms, keepRecent)..]) {
        SplitOrphansIff(ms, keepRecent);
        if i: nat, j: nat, k: nat :| Straddles(ms, CutPoint(ms, keepRecent), i, j, k) {
          StraddledIsInside(ms, CutPoint(ms, keepRecent), i, j, k);
        }
      }
    }
  }

  lemma StraddledIsInside(ms: seq<Message>, b: nat, i: nat, j: nat, k: nat)
    requires Straddles(ms, b, i, j, k)
    ensures 0 < b < |ms|
  {
  }

  /** When ids never repeat the documented promise therefore holds. */
  lemma SplitKeepsOrphanFree(ms: seq<Message>, keepRecent: int)
    requires OrphanFree(ms) && DistinctDeclarations(ms)
    ensures OrphanFree(ms[CutPoint(ms, keepRecent)..])
  {
    hide OrphanFree, CutPoint;
    SplitOrphansIff(ms, keepRecent);
  }

  /** With a repeated id the promise fails: the check counts a declaration that only
      comes after the tool row, so the cut is accepted and the right half has an orphan. */
  lemma SplitCanOrphanARepeatedId()
    ensures exists ms: seq<Message>, keepRecent: int ::
              OrphanFree(ms) && !OrphanFree(ms[CutPoint(ms, keepRecent)..])
  {
    var call := ToolCall("c", "web_fetch", Arguments("{}", "{}"));
    var ask := Message(Assistant, "", toolCalls := [call]);
    var answer := Message(Tool, "", toolCallId := Some("c"));
    var ms := [ask, UserMessage("hi"), answer, ask];
    assert call in ask.toolCalls && "c" in Declares(ask);
    assert ms[..3] == [ask, UserMessage("hi"), answer];
    assert ms[..3][..2] == [ask, UserMessage("hi")];
    assert ms[..3][..2][..1] == [ask];
    assert Declared([ask]) == Declared([ask][..0]) + Declares(ask);
    assert "c" in Declared([ask, UserMessage("hi")]) by {
      assert [ask, UserMessage("hi")][..1] == [ask];
    }
    ToolFreeOrphanFree([UserMessage("hi")]);
    AnsweredOrphanFree(ask, [], 0);
    OrphanFreeAppend([ask], [UserMessage("hi")]);
    assert [ask] + [] == [ask] && [ask] + [UserMessage("hi")] == [ask, UserMessage("hi")];
    assert OrphanFree(ms[..3]);
    assert OrphanFree(ms);
    var recent := ms[1..];
    assert recent == [UserMessage("hi"), answer, ask];
    assert recent[..2] == [UserMessage("hi"), answer];
    assert "c" in Declared(recent);
    assert !Breaks(ms, 1);
    assert CutPoint(ms, 3) == 1;
    assert recent[..2][..1] == [UserMessage("hi")];
    assert Declared([UserMessage("hi")]) == {} by { assert [UserMessage("hi")][..0] == []; }
    assert !OrphanFree(recent[..2]);
    assert !OrphanFree(recent);
  }

  // --- Compaction ------------------------------------------------------------------

  /** Shrinks one tool payload; what it does to the text is left open. */
  type Shrinker = (string, Option<string>) -> string

  function CompactRow(shrink: Shrinker, m: Message): Message {
    if m.role.Tool?
    then Message(Tool, shrink(m.content, m.toolName), toolCallId := m.toolCallId, toolName := m.toolName)
    else m
  }

  function CompactRows(shrink: Shrinker, ms: seq<Message>): (out: seq<Message>)
    ensures |out| == |ms|
    ensures forall i | 0 <= i < |ms| :: out[i] == CompactRow(shrink, ms[i])
  {
    seq(|ms|, i requires 0 <= i < |ms| => CompactRow(shrink, ms[i]))
  }

  method CompactHistoryToolMessages(shrink: Shrinker, messages: seq<Message>) returns (compacted: seq<Message>)
    ensures compacted == CompactRows(shrink, messages)
  {
    compacted := [];
    for i := 0 to |messages|
      invariant compacted == CompactRows(shrink, messages)[..i]
    {
      var message := messages[i];
      if !message.role.Tool? {
        compacted := compacted + [message];
      } else {
        var content := shrink(message.content, message.toolName);
        compacted := compacted +
          [Message(Tool, content, toolCallId := message.toolCallId, toolName := message.toolName)];
      }
    }
  }

  /** Compaction rewrites the payload of a tool row and nothing else of any row. */
  lemma CompactOnlyPayloads(shrink: Shrinker, ms: seq<Message>, i: nat)
    requires i < |ms|
    ensures !ms[i].role.Tool? ==> CompactRows(shrink, ms)[i] == ms[i]
    ensures ms[i].role.Tool? ==>
              var m := CompactRows(shrink, ms)[i];
              && m.role.Tool? && m.content == shrink(ms[i].content, ms[i].toolName)
              && m.toolCallId == ms[i].toolCallId && m.toolName == ms[i].toolName
  {
  }

  /** Compaction touches neither the declarations nor the pairing. */
  lemma CompactKeepsShape(shrink: Shrinker, ms: seq<Message>)
    ensures SameShapes(CompactRows(shrink, ms), ms)
    ensures OrphanFree(CompactRows(shrink, ms)) <==> OrphanFree(ms)
    ensures NonEmptyIds(CompactRows(shrink, ms)) <==> NonEmptyIds(ms)
    ensures Blocks(CompactRows(shrink, ms)) <==> Blocks(ms)
  {
    hide Blocks, OrphanFree, NonEmptyIds;
    var out := CompactRows(shrink, ms);
    assert SameShapes(out, ms) && SameShapes(ms, out);
    ShapeDecidesOrphans(out, ms);
    ShapeDecidesIds(out, ms);
    if Blocks(ms) { ShapeKeepsBlocks(ms, out); }
    if Blocks(out) { ShapeKeepsBlocks(out, ms); }
  }

  // --- Per-turn caps -----------------------------------------------------------------

  /** Deduplication key: the name and the key-sorted argument text. */
  function ToolCallKey(call: ToolCall): string {
    call.name + ":" + call.arguments.canonical
  }

  function ToolTurnLimit(name: string): Option<nat> {
    if name == "web_search" then Some(1)
    else if name == "web_fetch" then Some(2)
    else None
  }
}
