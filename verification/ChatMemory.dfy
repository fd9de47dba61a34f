/** The persisted conversation: which fields of a message survive storage. */
module ChatMemory {
  import opened Wrappers
  import opened Messages

  /** One element of the stored tool-call list; anything may be missing in a foreign row. */
  datatype RawCall =
    | NotAnObject
    | Object(id: Option<string>, name: Option<string>, arguments: Option<Arguments>)

  datatype Row = Row(role: Role, content: string, toolCallId: Option<string>,
                     toolCalls: Option<seq<RawCall>>, sources: Option<seq<Source>>)

  const NO_ARGUMENTS := Arguments("{}", "{}")

  predicate Usable(raw: RawCall) { raw.Object? && raw.id.Some? && raw.name.Some? }

  function ParseCall(raw: RawCall): ToolCall
    requires Usable(raw)
  {
    ToolCall(raw.id.value, raw.name.value, if raw.arguments.Some? then raw.arguments.value else NO_ARGUMENTS)
  }

  /** The well-formed calls, in order; malformed entries are skipped. */
  function ParsedCalls(raw: seq<RawCall>): seq<ToolCall> {
    if raw == [] then []
    else ParsedCalls(raw[..|raw| - 1]) + (if Usable(raw[|raw| - 1]) then [ParseCall(raw[|raw| - 1])] else [])
  }

  /** Stored calls are read back one by one, in order: an object with an id and a name gives a call,
      missing arguments are none, and anything else gives nothing. */
  lemma {:induction false} CallsReadBack(a: seq<RawCall>, b: seq<RawCall>)
    ensures ParsedCalls(a + b) == ParsedCalls(a) + ParsedCalls(b)
    ensures forall id, name, arguments ::
              ParsedCalls([Object(Some(id), Some(name), Some(arguments))]) == [ToolCall(id, name, arguments)]
    ensures forall id, name ::
              ParsedCalls([Object(Some(id), Some(name), None)]) == [ToolCall(id, name, Arguments("{}", "{}"))]
    ensures forall raw: RawCall | raw.NotAnObject? || raw.id.None? || raw.name.None? :: ParsedCalls([raw]) == []
  {
    assert forall raw: RawCall :: [raw][..0] == [];
    if b == [] {
      assert a + b == a;
    } else {
      assert (a + b)[..|a + b| - 1] == a + b[..|b| - 1];
      CallsReadBack(a, b[..|b| - 1]);
    }
  }

  method ParseToolCalls(raw: Option<seq<RawCall>>) returns (out: seq<ToolCall>)
    ensures out == if raw.None? then [] else ParsedCalls(raw.value)
  {
    if raw.None? || raw.value == [] {
      return [];
    }
    out := [];
    for i := 0 to |raw.value|
      invariant out == ParsedCalls(raw.value[..i])
    {
      var tc := raw.value[i];
      assert raw.value[..i + 1][..i] == raw.value[..i];
      if tc.NotAnObject? {
        continue;
      }
      if tc.id.None? || tc.name.None? {
        continue;
      }
      var args := if tc.arguments.Some? then tc.arguments.value else NO_ARGUMENTS;
      out := out + [ToolCall(tc.id.value, tc.name.value, args)];
    }
    assert raw.value[..|raw.value|] == raw.value;
  }

  function RawCalls(calls: seq<ToolCall>): (raw: seq<RawCall>)
    ensures |raw| == |calls|
  {
    seq(|calls|, i requires 0 <= i < |calls| =>
      Object(Some(calls[i].id), Some(calls[i].name), Some(calls[i].arguments)))
  }

  function ToRow(m: Message): Row {
    Row(m.role, m.content, m.toolCallId,
        if m.toolCalls == [] then None else Some(RawCalls(m.toolCalls)),
        if m.sources == [] then None else Some(m.sources))
  }

  function FromRow(row: Row): Message {
    Message(row.role, row.content,
            toolCalls := if row.toolCalls.None? then [] else ParsedCalls(row.toolCalls.value),
            toolCallId := row.toolCallId,
            toolName := if row.role.Tool? then Some("tool") else None,
            sources := if row.sources.None? then [] else row.sources.value)
  }

  function ToRows(ms: seq<Message>): (rows: seq<Row>)
    ensures |rows| == |ms| && forall i | 0 <= i < |ms| :: rows[i] == ToRow(ms[i])
  {
    seq(|ms|, i requires 0 <= i < |ms| => ToRow(ms[i]))
  }

  function FromRows(rows: seq<Row>): (ms: seq<Message>)
    ensures |ms| == |rows| && forall i | 0 <= i < |rows| :: ms[i] == FromRow(rows[i])
  {
    seq(|rows|, i requires 0 <= i < |rows| => FromRow(rows[i]))
  }

  lemma {:induction false} CallsSurvive(calls: seq<ToolCall>)
    ensures ParsedCalls(RawCalls(calls)) == calls
  {
    if calls != [] {
      var n := |calls| - 1;
      CallsSurvive(calls[..n]);
      assert RawCalls(calls)[..n] == RawCalls(calls[..n]);
    }
  }

  /** A stored message comes back whole except for its thinking text, and with a generic
      tool name. Role, content, declared calls, call id and sources survive. */
  lemma StorageRoundTrip(m: Message)
    ensures FromRow(ToRow(m))
            == m.(thinking := "", toolName := if m.role.Tool? then Some("tool") else None)
  {
    CallsSurvive(m.toolCalls);
  }

  lemma StorageKeepsShape(ms: seq<Message>)
    ensures SameShapes(FromRows(ToRows(ms)), ms)
  {
    forall i | 0 <= i < |ms| { StorageRoundTrip(ms[i]); }
  }

  /** Rows up to and including the last user row. */
  function UpToLastUser(rows: seq<Row>): (n: nat)
    ensures n <= |rows|
    ensures n > 0 ==> rows[n - 1].role.User?
    ensures forall i | n <= i < |rows| :: !rows[i].role.User?
  {
    if rows == [] then 0
    else if rows[|rows| - 1].role.User? then |rows|
    else UpToLastUser(rows[..|rows| - 1])
  }

  class ChatMemory {
    var rows: seq<Row>

    constructor ()
      ensures rows == []
    {
      rows := [];
    }

    method Get() returns (messages: seq<Message>)
      ensures messages == FromRows(rows)
    {
      messages := [];
      for i := 0 to |rows|
        invariant messages == FromRows(rows)[..i]
      {
        var calls := ParseToolCalls(rows[i].toolCalls);
        messages := messages + [Message(rows[i].role, rows[i].content,
          toolCalls := calls,
          toolCallId := rows[i].toolCallId,
          toolName := if rows[i].role.Tool? then Some("tool") else None,
          sources := if rows[i].sources.None? then [] else rows[i].sources.value)];
      }
    }

    method Append(m: Message)
      modifies this
      ensures rows == old(rows) + [ToRow(m)]
    {
      rows := rows + [ToRow(m)];
    }

    /** Regeneration: delete from the end until a user row remains. Without one everything
        is deleted and there is nothing to answer. */
    method RewindToUser() returns (anchor: Option<string>)
      modifies this
      ensures rows == old(rows)[..UpToLastUser(old(rows))]
      ensures anchor == if rows == [] then None else Some(rows[|rows| - 1].content)
      ensures rows != [] ==> rows[|rows| - 1].role.User?
    {
      while true
        invariant rows == old(rows)[..|rows|]
        invariant |rows| <= |old(rows)| && UpToLastUser(rows) == UpToLastUser(old(rows))
        decreases |rows|
      {
        if rows == [] {
          return None;
        }
        var last := rows[|rows| - 1];
        if last.role.User? {
          return Some(last.content);
        }
        rows := rows[..|rows| - 1];
      }
    }
  }
}
