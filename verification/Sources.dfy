/** Citation lists: every source a turn gathers gets the next rank. */
module Sources {
  import opened Wrappers
  import opened Messages

  datatype Hit = Hit(payload: string)

  /** One entry of a tool's `metadata.sources`; only objects are usable. */
  datatype RawSource = NotAnObject | Object(payload: string)

  datatype ToolResult = ToolResult(content: string, isError: bool, rawSources: Option<seq<RawSource>>)

  /** Payloads numbered from `start`. */
  function Ranked(payloads: seq<string>, start: int): (r: seq<Source>)
    ensures |r| == |payloads|
    ensures forall i | 0 <= i < |r| :: r[i] == Source(start + i, payloads[i])
  {
    seq(|payloads|, i requires 0 <= i < |payloads| => Source(start + i, payloads[i]))
  }

  function HitPayloads(hits: seq<Hit>): (r: seq<string>)
    ensures |r| == |hits| && forall i | 0 <= i < |r| :: r[i] == hits[i].payload
  {
    seq(|hits|, i requires 0 <= i < |hits| => hits[i].payload)
  }

  function Objects(raw: seq<RawSource>): seq<string> {
    if raw == [] then []
    else
      var last := raw[|raw| - 1];
      Objects(raw[..|raw| - 1]) + (if last.Object? then [last.payload] else [])
  }

  /** The payloads of the objects, in order, and nothing else. */
  lemma {:induction false} ObjectsInOrder(a: seq<RawSource>, b: seq<RawSource>)
    ensures Objects(a + b) == Objects(a) + Objects(b)
    ensures forall payload :: Objects([Object(payload)]) == [payload]
    ensures Objects([NotAnObject]) == []
  {
    assert forall raw: RawSource :: [raw][..0] == [];
    if b == [] {
      assert a + b == a;
    } else {
      assert (a + b)[..|a + b| - 1] == a + b[..|b| - 1];
      ObjectsInOrder(a, b[..|b| - 1]);
    }
  }

  function ToolPayloads(result: ToolResult): seq<string> {
    if result.rawSources.None? then [] else Objects(result.rawSources.value)
  }

  method SourcesFromHits(hits: seq<Hit>) returns (sources: seq<Source>)
    ensures sources == Ranked(HitPayloads(hits), 1)
  {
    sources := [];
    for i := 0 to |hits|
      invariant sources == Ranked(HitPayloads(hits), 1)[..i]
    {
      sources := sources + [Source(i + 1, hits[i].payload)];
    }
  }

  method SourcesFromToolResult(result: ToolResult, startRank: int) returns (sources: seq<Source>)
    ensures sources == Ranked(ToolPayloads(result), startRank)
  {
    if result.rawSources.None? {
      return [];
    }
    var raw := result.rawSources.value;
    sources := [];
    var rank := startRank;
    for i := 0 to |raw|
      invariant sources == Ranked(Objects(raw[..i]), startRank)
      invariant rank == startRank + |sources|
    {
      assert raw[..i + 1][..i] == raw[..i];
      if raw[i].NotAnObject? {
        continue;
      }
      sources := sources + [Source(rank, raw[i].payload)];
      rank := rank + 1;
    }
    assert raw[..|raw|] == raw;
  }
}
