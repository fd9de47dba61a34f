/** Chat messages and the structural law the whole chat stack keeps:
    a `tool` row is only meaningful after an `assistant` row that declared its call id. */
module Messages {

  import opened Wrappers

  datatype Role = System | User | Assistant | Tool

  /** A JSON argument object, seen only through its two renderings: the
      key-sorted JSON text used for deduplication and the plain text that is token-counted. */
  datatype Arguments = Arguments(canonical: string, rendered: string)

  datatype ToolCall = ToolCall(id: string, name: string, arguments: Arguments)

  /** A citation row; `rank` is the number the reader sees. */
  datatype Source = Source(rank: int, payload: string)

  datatype Message = Message(
    role: Role,
    content: string,
    thinking: string := "",
    toolCalls: seq<ToolCall> := [],
    toolCallId: Option<string> := None,
    toolName: Option<string> := None,
    sources: seq<Source> := [])

  function SystemMessage(content: string): Message { Message(System, content) }

  function UserMessage(content: string): Message { Message(User, content) }

  /** Call ids a single row introduces; only assistant rows introduce any. */
  function Declares(m: Message): set<string> {
    if m.role.Assistant? then set c <- m.toolCalls :: c.id else {}
  }

  /** Call ids introduced anywhere in `ms`. */
  function Declared(ms: seq<Message>): set<string> {
    if ms == [] then {} else Declared(ms[..|ms| - 1]) + Declares(ms[|ms| - 1])
  }

  /** `m` may follow rows that introduced `known`. */
  predicate Grounded(m: Message, known: set<string>) {
    m.role.Tool? ==> m.toolCallId.Some? && m.toolCallId.value in known
  }

  /** Every tool row has an earlier assistant row declaring its id. */
  predicate OrphanFree(ms: seq<Message>) {
    ms == [] ||
    (OrphanFree(ms[..|ms| - 1]) && Grounded(ms[|ms| - 1], Declared(ms[..|ms| - 1])))
  }

  /** `m` answers `call`: a tool row carrying its id. */
  predicate Answers(m: Message, call: ToolCall) {
    m.role.Tool? && m.toolCallId == Some(call.id)
  }

  predicate AnswersAll(ms: seq<Message>, calls: seq<ToolCall>) {
    |ms| == |calls| && forall k | 0 <= k < |calls| :: Answers(ms[k], calls[k])
  }

  /** Tool calls a row opens, as a provider reads it. */
  function Opens(m: Message): seq<ToolCall> {
    if m.role.Assistant? then m.toolCalls else []
  }

  /** A list of whole blocks: every row is not a tool row, and the calls an
      assistant row opens are answered at once, all of them and in order. */
  predicate Blocks(ms: seq<Message>)
    decreases |ms|
  {
    ms == [] ||
    var k := |Opens(ms[0])|;
    && !ms[0].role.Tool?
    && 1 + k <= |ms|
    && AnswersAll(ms[1..1 + k], Opens(ms[0]))
    && Blocks(ms[1 + k..])
  }

  predicate NonEmptyId(m: Message) {
    m.role.Tool? ==> m.toolCallId.Some? && m.toolCallId.value != ""
  }

  predicate NonEmptyIds(ms: seq<Message>) {
    forall m | m in ms :: NonEmptyId(m)
  }

  predicate ToolFree(ms: seq<Message>) {
    forall m | m in ms :: !m.role.Tool? && Opens(m) == []
  }

  // --- Declared ---------------------------------------------------------------

  lemma {:induction false} DeclaredAppend(a: seq<Message>, b: seq<Message>)
    ensures Declared(a + b) == Declared(a) + Declared(b)
  {
    if b == [] {
      assert a + b == a;
    } else {
      assert (a + b)[..|a + b| - 1] == a + b[..|b| - 1];
      DeclaredAppend(a, b[..|b| - 1]);
    }
  }

  lemma {:induction false} DeclaredMember(ms: seq<Message>, id: string)
    ensures id in Declared(ms) <==> exists m :: m in ms && id in Declares(m)
  {
    if ms != [] {
      var init := ms[..|ms| - 1];
      DeclaredMember(init, id);
      assert ms == init + [ms[|ms| - 1]];
    }
  }

  // --- OrphanFree --------------------------------------------------------------

  /** OrphanFree, read off the rows: each tool row has an assistant row strictly
      before it that declares the very same id. */
  lemma {:induction false} OrphanFreeMeansDeclaredEarlier(ms: seq<Message>)
    ensures OrphanFree(ms) <==>
            forall j | 0 <= j < |ms| && ms[j].role.Tool? ::
              ms[j].toolCallId.Some? &&
              exists i | 0 <= i < j :: ms[i].role.Assistant? && ms[j].toolCallId.value in Declares(ms[i])
  {
    if ms == [] { return; }
    var n := |ms| - 1;
    var init := ms[..n];
    OrphanFreeMeansDeclaredEarlier(init);
    assert forall i | 0 <= i < n :: init[i] == ms[i];
    if ms[n].role.Tool? && ms[n].toolCallId.Some? {
      DeclaredMember(init, ms[n].toolCallId.value);
    }
  }

  lemma {:induction false} OrphanFreeAppend(a: seq<Message>, b: seq<Message>)
    requires OrphanFree(a) && OrphanFree(b)
    ensures OrphanFree(a + b)
  {
    if b == [] {
      assert a + b == a;
    } else {
      assert (a + b)[..|a + b| - 1] == a + b[..|b| - 1];
      OrphanFreeAppend(a, b[..|b| - 1]);
      DeclaredAppend(a, b[..|b| - 1]);
    }
  }

  lemma {:induction false} OrphanFreePrefix(ms: seq<Message>, n: nat)
    requires OrphanFree(ms) && n <= |ms|
    ensures OrphanFree(ms[..n])
  {
    if n < |ms| {
      OrphanFreePrefix(ms[..|ms| - 1], n);
      assert ms[..|ms| - 1][..n] == ms[..n];
    } else {
      assert ms[..n] == ms;
    }
  }

  lemma {:induction false} ToolFreeOrphanFree(ms: seq<Message>)
    requires ToolFree(ms)
    ensures OrphanFree(ms)
  {
    if ms != [] {
      ToolFreeOrphanFree(ms[..|ms| - 1]);
    }
  }

  // --- Blocks ------------------------------------------------------------------

  /** Putting a block in front of a block list. */
  lemma BlocksCons(m: Message, answers: seq<Message>, rest: seq<Message>)
    requires !m.role.Tool? && AnswersAll(answers, Opens(m)) && Blocks(rest)
    ensures Blocks([m] + answers + rest)
  {
    var ms := [m] + answers + rest;
    assert ms[1..1 + |Opens(m)|] == answers;
    assert ms[1 + |Opens(m)|..] == rest;
  }

  /** Taking the first block off a nonempty block list. */
  lemma BlocksUncons(ms: seq<Message>) returns (answers: seq<Message>, rest: seq<Message>)
    requires Blocks(ms) && ms != []
    ensures !ms[0].role.Tool? && AnswersAll(answers, Opens(ms[0])) && Blocks(rest)
    ensures ms == [ms[0]] + answers + rest
  {
    var k := |Opens(ms[0])|;
    answers, rest := ms[1..1 + k], ms[1 + k..];
  }

  lemma {:induction false} BlocksAppend(a: seq<Message>, b: seq<Message>)
    requires Blocks(a) && Blocks(b)
    ensures Blocks(a + b)
    decreases |a|
  {
    hide Blocks, AnswersAll;
    if a == [] {
      assert a + b == b;
    } else {
      var answers, rest := BlocksUncons(a);
      assert a + b == [a[0]] + answers + (rest + b) by {
        assert a == [a[0]] + answers + rest;
      }
      assert Blocks(rest + b) by { BlocksAppend(rest, b); }
      BlocksCons(a[0], answers, rest + b);
    }
  }

  lemma {:induction false} ToolFreeBlocks(ms: seq<Message>)
    requires ToolFree(ms)
    ensures Blocks(ms)
  {
    if ms != [] {
      assert ms[0] in ms;
      ToolFreeBlocks(ms[1..]);
    }
  }

  /** One answered assistant row is a block. */
  lemma BlockOfOne(m: Message, answers: seq<Message>)
    requires !m.role.Tool? && AnswersAll(answers, Opens(m))
    ensures Blocks([m] + answers)
  {
    var ms := [m] + answers;
    assert ms[1..1 + |Opens(m)|] == answers;
    assert ms[1 + |Opens(m)|..] == [];
  }

  /** The answers of one declaring row are grounded right after it. */
  lemma {:induction false} AnsweredOrphanFree(m: Message, answers: seq<Message>, n: nat)
    requires !m.role.Tool? && n <= |answers| && n <= |Opens(m)|
    requires forall k | 0 <= k < n :: Answers(answers[k], Opens(m)[k])
    ensures OrphanFree([m] + answers[..n])
    ensures Declares(m) <= Declared([m] + answers[..n])
  {
    if n == 0 {
      assert [m] + answers[..0] == [m];
      assert [m][..0] == [];
      assert Declared([m]) == Declared([]) + Declares(m);
    } else {
      AnsweredOrphanFree(m, answers, n - 1);
      var ms := [m] + answers[..n];
      assert ms[..|ms| - 1] == [m] + answers[..n - 1];
      assert Opens(m)[n - 1] in Opens(m);
    }
  }

  /** Whole blocks are in particular orphan-free. */
  lemma {:induction false} BlocksOrphanFree(ms: seq<Message>)
    requires Blocks(ms)
    ensures OrphanFree(ms)
    decreases |ms|
  {
    if ms != [] {
      var answers, rest := BlocksUncons(ms);
      AnsweredOrphanFree(ms[0], answers, |answers|);
      assert answers[..|answers|] == answers;
      BlocksOrphanFree(rest);
      OrphanFreeAppend([ms[0]] + answers, rest);
    }
  }

  /** A block list may be cut exactly in front of a non-tool row. */
  lemma {:induction false} BlocksCut(ms: seq<Message>, b: nat)
    requires Blocks(ms) && b <= |ms|
    ensures b == |ms| || !ms[b].role.Tool? ==> Blocks(ms[..b]) && Blocks(ms[b..])
    ensures b < |ms| && ms[b].role.Tool? ==> !Blocks(ms[b..])
    decreases |ms|
  {
    if ms == [] || b == 0 {
      assert ms[..b] == [] && ms[b..] == ms;
    } else {
      var k := |Opens(ms[0])|;
      if b < 1 + k {
        assert Answers(ms[1..1 + k][b - 1], Opens(ms[0])[b - 1]);
      } else {
        var rest := ms[1 + k..];
        BlocksCut(rest, b - 1 - k);
        assert rest[b - 1 - k..] == ms[b..];
        assert ms[..b][1 + k..] == rest[..b - 1 - k];
        assert ms[..b][1..1 + k] == ms[1..1 + k];
      }
    }
  }

  // --- What pairing depends on -----------------------------------------------------

  /** Same role, same declared calls, same answered call. */
  predicate SameShape(m: Message, n: Message) {
    m.role == n.role && m.toolCallId == n.toolCallId && Opens(m) == Opens(n)
  }

  predicate SameShapes(a: seq<Message>, b: seq<Message>) {
    |a| == |b| && forall i | 0 <= i < |a| :: SameShape(a[i], b[i])
  }

  lemma {:induction false} ShapeDecidesOrphans(a: seq<Message>, b: seq<Message>)
    requires SameShapes(a, b)
    ensures Declared(a) == Declared(b)
    ensures OrphanFree(a) <==> OrphanFree(b)
  {
    if a != [] {
      var n := |a| - 1;
      ShapeDecidesOrphans(a[..n], b[..n]);
      assert SameShape(a[n], b[n]);
    }
  }

  lemma ShapeDecidesIds(a: seq<Message>, b: seq<Message>)
    requires SameShapes(a, b)
    ensures NonEmptyIds(a) <==> NonEmptyIds(b)
  {
    forall i | 0 <= i < |a| ensures NonEmptyId(a[i]) <==> NonEmptyId(b[i]) {
      assert SameShape(a[i], b[i]);
    }
    if NonEmptyIds(a) {
      forall i | 0 <= i < |b| ensures NonEmptyId(b[i]) { assert a[i] in a; }
    }
    if NonEmptyIds(b) {
      forall i | 0 <= i < |a| ensures NonEmptyId(a[i]) { assert b[i] in b; }
    }
  }

  lemma SameShapesPart(a: seq<Message>, b: seq<Message>, i: nat, j: nat)
    requires SameShapes(a, b) && i <= j <= |a|
    ensures SameShapes(a[i..j], b[i..j])
  {
    hide SameShape;
  }

  lemma SameHead(m: Message, n: Message)
    requires SameShape(m, n)
    ensures m.role == n.role && Opens(m) == Opens(n)
  {
  }

  lemma ShapeKeepsAnswers(a: seq<Message>, b: seq<Message>, calls: seq<ToolCall>)
    requires SameShapes(a, b) && AnswersAll(a, calls)
    ensures AnswersAll(b, calls)
  {
    forall k | 0 <= k < |calls| ensures Answers(b[k], calls[k]) {
      assert Answers(a[k], calls[k]) && SameShape(a[k], b[k]);
    }
  }

  lemma {:induction false} ShapeKeepsBlocks(a: seq<Message>, b: seq<Message>)
    requires SameShapes(a, b) && Blocks(a)
    ensures Blocks(b)
    decreases |a|
  {
    hide Blocks, SameShape, Answers;
    if a == [] {
      assert b == a;
    } else {
      var answers, rest := BlocksUncons(a);
      var k := |answers|;
      assert SameShape(a[0], b[0]);
      SameHead(a[0], b[0]);
      assert a[1..1 + k] == answers && a[1 + k..] == rest;
      SameShapesPart(a, b, 1, 1 + k);
      SameShapesPart(a, b, 1 + k, |a|);
      ShapeKeepsBlocks(rest, b[1 + k..]);
      ShapeKeepsAnswers(answers, b[1..1 + k], Opens(a[0]));
      assert [b[0]] + b[1..1 + k] + b[1 + k..] == b;
      BlocksCons(b[0], b[1..1 + k], b[1 + k..]);
    }
  }
}
