/** The accumulator for streamed tool-call fragments, and the stream that feeds and drains it. */
module ToolCallBuilder {
  import opened Wrappers
  import opened Orders

  /** One element of a `tool_calls` delta; `Malformed` has no integer index. Absent text members
      are empty, which the code treats alike. */
  datatype Item = Malformed | Fragment(index: int, id: string, setsId: bool, name: string, args: string)

  datatype Entry = Entry(id: string, name: string, args: string)

  datatype RawToolCall = RawToolCall(id: string, name: string, args: string)

  type Buffer = map<int, Entry>

  // --- What the fragments of one call amount to ----------------------------------------------

  /** The fragments of one index, in order. */
  function Of(index: int, items: seq<Item>): (own: seq<Item>)
    ensures forall k | 0 <= k < |own| :: own[k].Fragment? && own[k].index == index
  {
    if items == [] then [] else
      Of(index, items[..|items| - 1]) + if items[|items| - 1].Fragment?
          && items[|items| - 1].index == index then [items[|items| - 1]] else []
  }

  function Names(own: seq<Item>): string
    requires forall k | 0 <= k < |own| :: own[k].Fragment?
  {
    if own == [] then "" else Names(own[..|own| - 1]) + own[|own| - 1].name
  }

  function Args(own: seq<Item>): string
    requires forall k | 0 <= k < |own| :: own[k].Fragment?
  {
    if own == [] then "" else Args(own[..|own| - 1]) + own[|own| - 1].args
  }

  /** The last id sent wins. */
  function LastId(own: seq<Item>): string
    requires forall k | 0 <= k < |own| :: own[k].Fragment?
  {
    if own == [] then "" else if own[|own| - 1].setsId then own[|own| - 1].id else LastId(own[..|own| - 1])
  }

  function Whole(own: seq<Item>): Entry
    requires forall k | 0 <= k < |own| :: own[k].Fragment?
  {
    Entry(LastId(own), Names(own), Args(own))
  }

  /** The fragments of an index are those that carry it, in order; their names and arguments are joined,
      and the last id that was sent counts. */
  lemma {:induction false} FragmentsJoin(index: int, items: seq<Item>, f: Item)
    ensures Of(index, []) == [] && Names([]) == "" == Args([]) && LastId([]) == ""
    ensures f.Malformed? || f.index != index ==> Of(index, items + [f]) == Of(index, items)
    ensures f.Fragment? && f.index == index ==>
              var own, more := Of(index, items), Of(index, items + [f]);
              && more == own + [f] && Names(more) == Names(own) + f.name && Args(more) == Args(own) + f.args
              && LastId(more) == if f.setsId then f.id else LastId(own)
  {
    assert (items + [f])[..|items|] == items;
    if f.Fragment? && f.index == index {
      WholeNext(Of(index, items), f);
    }
    assert Of(index, items) + [] == Of(index, items);
  }

  lemma WholeNext(own: seq<Item>, f: Item)
    requires f.Fragment? && forall k | 0 <= k < |own| :: own[k].Fragment?
    ensures var e := Whole(own);
            Whole(own + [f]) == Entry(if f.setsId then f.id else e.id, e.name + f.name, e.args + f.args)
  {
    assert (own + [f])[..|own|] == own;
  }

  // --- The buffer ----------------------------------------------------------------------------

  function Put(buf: Buffer, item: Item): Buffer {
    if item.Malformed? then buf else
      var e := if item.index in buf then buf[item.index] else Entry("", "", "");
      buf[item.index := Entry(if item.setsId then item.id else e.id, e.name + item.name, e.args + item.args)]
  }

  function Absorb(buf: Buffer, items: seq<Item>): Buffer {
    if items == [] then buf else Put(Absorb(buf, items[..|items| - 1]), items[|items| - 1])
  }

  /** Starting empty, the buffer holds exactly the indices that occurred, each with its own
      fragments put together in order. */
  lemma {:induction false} BufferHoldsEachCall(items: seq<Item>, index: int)
    ensures index in Absorb(map[], items) <==> Of(index, items) != []
    ensures index in Absorb(map[], items) ==> Absorb(map[], items)[index] == Whole(Of(index, items))
  {
    if items != [] {
      var init, last := items[..|items| - 1], items[|items| - 1];
      BufferHoldsEachCall(init, index);
      var own := Of(index, init);
      if last.Fragment? && last.index == index {
        WholeNext(own, last);
      } else {
        assert own + [] == own;
      }
    }
  }

  lemma {:induction false} AbsorbAppend(buf: Buffer, a: seq<Item>, b: seq<Item>)
    ensures Absorb(buf, a + b) == Absorb(Absorb(buf, a), b)
  {
    if b == [] {
      assert a + b == a;
    } else {
      assert (a + b)[..|a + b| - 1] == a + b[..|b| - 1];
      AbsorbAppend(buf, a, b[..|b| - 1]);
    }
  }

  /** Two streams agree when each index sees the same fragments in the same order. */
  ghost predicate SamePerIndex(a: seq<Item>, b: seq<Item>) {
    forall index :: Of(index, a) == Of(index, b)
  }

  /** How the calls are interleaved makes no difference. */
  lemma InterleavingDoesNotMatter(a: seq<Item>, b: seq<Item>)
    requires SamePerIndex(a, b)
    ensures Absorb(map[], a) == Absorb(map[], b)
    ensures Collected(Absorb(map[], a)) == Collected(Absorb(map[], b))
  {
    forall index
      ensures index in Absorb(map[], a) <==> index in Absorb(map[], b)
      ensures index in Absorb(map[], a) ==> Absorb(map[], a)[index] == Absorb(map[], b)[index]
    {
      BufferHoldsEachCall(a, index);
      BufferHoldsEachCall(b, index);
    }
    assert Absorb(map[], a) == Absorb(map[], b);
  }

  function Joined(batches: seq<seq<Item>>): seq<Item> {
    if batches == [] then [] else Joined(batches[..|batches| - 1]) + batches[|batches| - 1]
  }

  // --- Finalising ----------------------------------------------------------------------------

  function DigitOf(n: nat): char
    requires n < 10
  {
    "0123456789"[n]
  }

  function Decimal(n: nat): (s: string)
    ensures s != ""
  {
    if n < 10 then [DigitOf(n)] else Decimal(n / 10) + [DigitOf(n % 10)]
  }

  /** The number a text of digits stands for. */
  function Reads(s: string): int {
    if s == "" then 0 else 10 * Reads(s[..|s| - 1]) + (s[|s| - 1] as int - '0' as int)
  }

  lemma {:induction false} DecimalReads(n: nat)
    ensures (forall c | c in Decimal(n) :: '0' <= c <= '9') && Reads(Decimal(n)) == n
  {
    assert forall d: nat | d < 10 :: DigitOf(d) as int == '0' as int + d;
    if n >= 10 {
      DecimalReads(n / 10);
      assert Decimal(n)[..|Decimal(n)| - 1] == Decimal(n / 10);
    } else {
      assert Decimal(n)[..0] == "";
    }
  }

  function Finished(index: int, e: Entry): RawToolCall {
    RawToolCall(if e.id != "" then e.id else "call_idx" + if index < 0 then "-" + Decimal(-index) else Decimal(index),
                e.name, e.args)
  }

  /** The calls of the listed indices, nameless ones dropped. */
  function Calls(buf: Buffer, order: seq<int>): seq<RawToolCall>
    requires forall i | i in order :: i in buf
  {
    if order == [] then [] else
      var i := order[|order| - 1];
      Calls(buf, order[..|order| - 1]) + if buf[i].name != "" then [Finished(i, buf[i])] else []
  }

  ghost function Collected(buf: Buffer): seq<RawToolCall> {
    Calls(buf, Sorted(buf.Keys))
  }

  lemma NoCalls(buf: Buffer)
    ensures Calls(buf, []) == []
  {
  }

  lemma CallsNext(buf: Buffer, order: seq<int>, k: nat)
    requires k < |order| && forall i | i in order :: i in buf
    ensures forall i | i in order[..k + 1] :: i in buf
    ensures Calls(buf, order[..k + 1]) == Calls(buf, order[..k]) + if buf[order[k]].name != ""
            then [Finished(order[k], buf[order[k]])] else []
  {
    assert order[..k + 1][..k] == order[..k];
  }

  /** The indices that have a name, in the order listed. */
  function Named(buf: Buffer, order: seq<int>): (named: seq<int>)
    requires forall i | i in order :: i in buf
  {
    if order == [] then [] else
      var last := order[|order| - 1];
      Named(buf, order[..|order| - 1]) + if buf[last].name != "" then [last] else []
  }

  lemma {:induction false} NamedElements(buf: Buffer, order: seq<int>, i: int)
    requires forall i | i in order :: i in buf
    ensures i in Named(buf, order) <==> i in order && buf[i].name != ""
  {
    if order != [] {
      NamedElements(buf, order[..|order| - 1], i);
      assert order == order[..|order| - 1] + [order[|order| - 1]];
    }
  }

  lemma {:induction false} NamedAscending(buf: Buffer, order: seq<int>)
    requires (forall i | i in order :: i in buf) && Ascending(order)
    ensures Ascending(Named(buf, order))
  {
    if order != [] {
      var m := |order| - 1;
      NamedAscending(buf, order[..m]);
      forall k | 0 <= k < |Named(buf, order[..m])| ensures Named(buf, order[..m])[k] < order[m] {
        NamedElements(buf, order[..m], Named(buf, order[..m])[k]);
      }
    }
  }

  lemma {:induction false} CallsOfNamed(buf: Buffer, order: seq<int>)
    requires forall i | i in order :: i in buf
    ensures |Calls(buf, order)| == |Named(buf, order)|
    ensures forall k | 0 <= k < |Named(buf, order)| ::
              var i := Named(buf, order)[k];
              i in buf && buf[i].name != "" && Calls(buf, order)[k] == Finished(i, buf[i])
  {
    if order != [] {
      CallsOfNamed(buf, order[..|order| - 1]);
    }
  }

  /** Each index that was given a name yields exactly one call, in ascending order of index, with
      its fragments joined in order; every call has a name and an id. */
  lemma EachNamedIndexOnce(items: seq<Item>)
    ensures var out := Collected(Absorb(map[], items));
            exists order: seq<int> ::
              && Ascending(order) && |order| == |out|
              && (forall i :: i in order <==> Of(i, items) != [] && Names(Of(i, items)) != "")
              && forall k | 0 <= k < |out| ::
                   var own := Of(order[k], items);
                   && out[k].name == Names(own) != "" && out[k].args == Args(own) && out[k].id != ""
                   && out[k].id == if LastId(own) != "" then LastId(own)
                                   else "call_idx" + if order[k] < 0 then "-" + Decimal(-order[k])
                                        else Decimal(order[k])
  {
    hide Of, Named, Calls, Absorb, Names, Args, LastId;
    var buf := Absorb(map[], items);
    var all := Sorted(buf.Keys);
    var order := Named(buf, all);
    var out := Calls(buf, all);
    CallsOfNamed(buf, all);
    NamedAscending(buf, all);
    forall i ensures i in order <==> Of(i, items) != [] && Names(Of(i, items)) != "" {
      BufferHoldsEachCall(items, i);
      NamedElements(buf, all, i);
    }
    forall k | 0 <= k < |out|
      ensures out[k] == Finished(order[k], Whole(Of(order[k], items))) && out[k].id != "" && out[k].name != ""
      ensures out[k].name == Names(Of(order[k], items)) && out[k].args == Args(Of(order[k], items))
    {
      assert order[k] in order;
      BufferHoldsEachCall(items, order[k]);
    }
  }

  class Builder {
    var buf: Buffer

    constructor ()
      ensures buf == map[]
    {
      buf := map[];
    }

    method Feed(raw: seq<Item>)
      modifies this
      ensures buf == Absorb(old(buf), raw)
    {
      for n := 0 to |raw|
        invariant buf == Absorb(old(buf), raw[..n])
      {
        assert raw[..n + 1][..n] == raw[..n];
        var item := raw[n];
        if item.Malformed? {
          continue;
        }
        if item.index !in buf {
          buf := buf[item.index := Entry("", "", "")];
        }
        var e := buf[item.index];
        if item.setsId {
          e := e.(id := item.id);
        }
        e := e.(name := e.name + item.name);
        e := e.(args := e.args + item.args);
        buf := buf[item.index := e];
      }
      assert raw[..|raw|] == raw;
    }

    /** Finalises everything buffered, and resets. */
    method TakeAll() returns (out: seq<RawToolCall>)
      modifies this
      ensures out == Collected(old(buf))
      ensures buf == map[]
    {
      hide Absorb, Finished, Calls;
      assert Calls(buf, []) == [] by { NoCalls(buf); }
      var taken := buf;
      var order := Sort(taken.Keys);
      out := [];
      for k := 0 to |order|
        invariant forall i | i in order[..k] :: i in taken
        invariant out == Calls(taken, order[..k])
      {
        CallsNext(taken, order, k);
        assert order[k] in order;
        var entry := taken[order[k]];
        if entry.name == "" {
          continue;
        }
        out := out + [Finished(order[k], entry)];
      }
      assert order[..|order|] == order;
      buf := map[];
    }
  }

  /** However a stream is cut into deltas, taking all at the end gives what one feed would. */
  method FeedInBatches(batches: seq<seq<Item>>) returns (out: seq<RawToolCall>)
    ensures out == Collected(Absorb(map[], Joined(batches)))
  {
    var builder := new Builder();
    for n := 0 to |batches|
      invariant builder.buf == Absorb(map[], Joined(batches[..n]))
    {
      assert batches[..n + 1][..n] == batches[..n];
      AbsorbAppend(map[], Joined(batches[..n]), batches[n]);
      builder.Feed(batches[n]);
    }
    assert batches[..|batches|] == batches;
    out := builder.TakeAll();
  }

  // --- The response stream -------------------------------------------------------------------

  /** A line of the response: a blank or comment, the terminator, a line that is not JSON, a chunk
      without choices, or one with. */
  datatype Event =
    | Skip
    | DoneMark
    | Garbage
    | UsageOnly(usage: string)
    | Choice(text: string, calls: seq<Item>, finish: bool)

  datatype StreamChunk = TextChunk(text: string) | CallsChunk(calls: seq<RawToolCall>)
                       | Terminator(usage: Option<string>)

  predicate Stops(e: Event) { e.DoneMark? || e.Garbage? }

  /** The events read before the stream stops: up to the terminator or a line that is not JSON, or all
      of them. */
  function Live(events: seq<Event>): (live: seq<Event>)
    ensures |live| <= |events| && live == events[..|live|]
    ensures forall k | 0 <= k < |live| :: !Stops(events[k])
    ensures |live| < |events| ==> Stops(events[|live|])
  {
    if events == [] || Stops(events[0]) then [] else [events[0]] + Live(events[1..])
  }

  /** The fragments since the last finish reason. */
  function Open(live: seq<Event>): seq<Item> {
    if live == [] then [] else
      var init, e := live[..|live| - 1], live[|live| - 1];
      if !e.Choice? then Open(init) else if e.finish then [] else Open(init) + e.calls
  }

  /** The fragments between finish reasons, batch by batch. */
  function Closed(live: seq<Event>): seq<seq<Item>> {
    if live == [] then [] else
      var init, e := live[..|live| - 1], live[|live| - 1];
      Closed(init) + if e.Choice? && e.finish then [Open(init) + e.calls] else []
  }

  function AllItems(live: seq<Event>): seq<Item> {
    if live == [] then [] else
      AllItems(live[..|live| - 1]) + if live[|live| - 1].Choice? then live[|live| - 1].calls else []
  }

  /** Every fragment is in exactly one batch, in order: none is flushed twice and none is lost. */
  lemma {:induction false} BatchesPartitionTheFragments(live: seq<Event>)
    ensures Joined(Closed(live) + [Open(live)]) == AllItems(live)
    ensures Joined(Closed(live)) + Open(live) == AllItems(live)
  {
    var closed := Closed(live);
    assert (closed + [Open(live)])[..|closed|] == closed;
    if live != [] {
      var init := live[..|live| - 1];
      BatchesPartitionTheFragments(init);
      var batch := Open(init) + if live[|live| - 1].Choice? then live[|live| - 1].calls else [];
      assert (Closed(init) + [batch])[..|Closed(init)|] == Closed(init);
      assert Closed(init) + [] == Closed(init);
      assert Joined(Closed(init)) + batch == AllItems(live);
    }
  }

  ghost function CallsOf(batches: seq<seq<Item>>): seq<RawToolCall> {
    if batches == [] then [] else
      CallsOf(batches[..|batches| - 1]) + Collected(Absorb(map[], batches[|batches| - 1]))
  }

  function EmittedCalls(chunks: seq<StreamChunk>): seq<RawToolCall> {
    if chunks == [] then [] else
      EmittedCalls(chunks[..|chunks| - 1]) + if chunks[|chunks| - 1].CallsChunk? then chunks[|chunks| - 1].calls else []
  }

  function EmittedText(chunks: seq<StreamChunk>): string {
    if chunks == [] then "" else
      EmittedText(chunks[..|chunks| - 1]) + if chunks[|chunks| - 1].TextChunk? then chunks[|chunks| - 1].text else ""
  }

  function TextOf(live: seq<Event>): string {
    if live == [] then "" else
      TextOf(live[..|live| - 1]) + if live[|live| - 1].Choice? then live[|live| - 1].text else ""
  }

  function LastUsage(live: seq<Event>): (usage: Option<string>) {
    if live == [] then None else
      if live[|live| - 1].UsageOnly? then Some(live[|live| - 1].usage) else LastUsage(live[..|live| - 1])
  }

  predicate SawFinish(live: seq<Event>) { exists n | 0 <= n < |live| :: live[n].Choice? && live[n].finish }

  lemma EmitOne(chunks: seq<StreamChunk>, c: StreamChunk)
    ensures EmittedCalls(chunks + [c]) == EmittedCalls(chunks) + if c.CallsChunk? then c.calls else []
    ensures EmittedText(chunks + [c]) == EmittedText(chunks) + if c.TextChunk? then c.text else ""
  {
    assert (chunks + [c])[..|chunks|] == chunks;
  }

  function TextChunks(text: string): seq<StreamChunk> { if text != "" then [TextChunk(text)] else [] }

  /** What flushing a batch emits. */
  ghost function Flushed(batch: seq<Item>): seq<StreamChunk> {
    var calls := Collected(Absorb(map[], batch));
    if calls != [] then [CallsChunk(calls)] else []
  }

  /** What the events emit, in order: the text of each, and at each finish reason the calls whose
      fragments came since the last. */
  ghost function Emitted(live: seq<Event>): seq<StreamChunk> {
    if live == [] then []
    else
      var init, e := live[..|live| - 1], live[|live| - 1];
      if !e.Choice? then Emitted(init)
      else Emitted(init) + TextChunks(e.text) + (if e.finish then Flushed(Open(init) + e.calls) else [])
  }

  predicate NoTerminator(chunks: seq<StreamChunk>) { forall n | 0 <= n < |chunks| :: !chunks[n].Terminator? }

  lemma EmitText(chunks: seq<StreamChunk>, text: string)
    ensures EmittedText(chunks + TextChunks(text)) == EmittedText(chunks) + text
    ensures EmittedCalls(chunks + TextChunks(text)) == EmittedCalls(chunks)
  {
    if text == "" {
      assert chunks + [] == chunks;
    } else {
      EmitOne(chunks, TextChunk(text));
    }
  }

  lemma EmitBatch(chunks: seq<StreamChunk>, batch: seq<Item>)
    ensures EmittedText(chunks + Flushed(batch)) == EmittedText(chunks)
    ensures EmittedCalls(chunks + Flushed(batch)) == EmittedCalls(chunks) + Collected(Absorb(map[], batch))
  {
    hide Collected, Absorb;
    var calls := Collected(Absorb(map[], batch));
    if calls == [] {
      assert chunks + [] == chunks;
    } else {
      EmitOne(chunks, CallsChunk(calls));
    }
  }

  /** Nothing is emitted twice or lost: all the text, and the calls of every batch, in order. */
  lemma {:induction false} EmittedInOrder(live: seq<Event>)
    ensures EmittedText(Emitted(live)) == TextOf(live)
    ensures EmittedCalls(Emitted(live)) == CallsOf(Closed(live))
    ensures NoTerminator(Emitted(live))
  {
    hide CallsOf, EmittedText, EmittedCalls, Flushed, Collected, Absorb;
    if live == [] {
      StartsEmpty();
    } else {
      var init, e := live[..|live| - 1], live[|live| - 1];
      EmittedInOrder(init);
      FlushedIsCalls(Open(init));
      if e.Choice? {
        var batch := Open(init) + e.calls;
        FlushedIsCalls(batch);
        EmitText(Emitted(init), e.text);
        var said := Emitted(init) + TextChunks(e.text);
        EmitBatch(said, batch);
        CallsOfNext(Closed(init), batch);
        assert Emitted(live) == said + (if e.finish then Flushed(batch) else []);
        assert said + [] == said;
      }
      assert Closed(init) + [] == Closed(init) && TextOf(init) + "" == TextOf(init);
    }
  }

  lemma FlushedIsCalls(batch: seq<Item>)
    ensures NoTerminator(Flushed(batch))
  {
  }

  lemma StartsEmpty()
    ensures EmittedCalls([]) == [] == CallsOf([]) && EmittedText([]) == "" && Absorb(map[], []) == map[]
    ensures Open([]) == [] && Closed([]) == [] && TextOf([]) == "" && Emitted([]) == []
    ensures !SawFinish([]) && LastUsage([]) == None
  {
  }

  lemma SameBatches(events: seq<Event>, n: nat)
    requires n < |events| && !events[n].Choice?
    ensures Open(events[..n + 1]) == Open(events[..n])
    ensures Emitted(events[..n + 1]) == Emitted(events[..n])
    ensures SawFinish(events[..n + 1]) == SawFinish(events[..n])
    ensures LastUsage(events[..n + 1]) == if events[n].UsageOnly? then Some(events[n].usage) else LastUsage(events[..n])
  {
    NextEvent(events, n);
    FinishNext(events[..n], events[n]);
  }

  lemma FinishNext(live: seq<Event>, e: Event)
    ensures SawFinish(live + [e]) == (SawFinish(live) || (e.Choice? && e.finish))
  {
    assert (live + [e])[|live|] == e;
    assert forall n | 0 <= n < |live| :: (live + [e])[n] == live[n];
    if SawFinish(live) {
      var n :| 0 <= n < |live| && live[n].Choice? && live[n].finish;
      assert (live + [e])[n].finish;
    }
  }

  lemma ChoiceBatches(events: seq<Event>, n: nat)
    requires n < |events| && events[n].Choice?
    ensures var batch := Open(events[..n]) + events[n].calls;
            Open(events[..n + 1]) == (if events[n].finish then [] else batch)
    ensures Emitted(events[..n + 1]) == Emitted(events[..n]) + TextChunks(events[n].text)
                                        + (if events[n].finish then Flushed(Open(events[..n]) + events[n].calls)
                                           else [])
    ensures LastUsage(events[..n + 1]) == LastUsage(events[..n])
    ensures SawFinish(events[..n + 1]) == (SawFinish(events[..n]) || events[n].finish)
  {
    NextEvent(events, n);
    FinishNext(events[..n], events[n]);
  }

  lemma NextEvent(events: seq<Event>, n: nat)
    requires n < |events|
    ensures events[..n + 1] == events[..n] + [events[n]]
    ensures events[..n + 1][..n] == events[..n] && events[..n + 1][n] == events[n]
  {
  }

  lemma CallsOfNext(batches: seq<seq<Item>>, batch: seq<Item>)
    ensures CallsOf(batches + [batch]) == CallsOf(batches) + Collected(Absorb(map[], batch))
  {
    assert (batches + [batch])[..|batches|] == batches;
  }

  /** A stream that ended properly: everything read, the calls still open, and one terminator if a
      finish reason, the terminator line or a usage report was seen. */
  ghost function Complete(events: seq<Event>): seq<StreamChunk> {
    var live := Live(events);
    Emitted(live) + Flushed(Open(live))
    + (if |live| < |events| || SawFinish(live) || LastUsage(live).Some? then [Terminator(LastUsage(live))] else [])
  }

  /** It carries all the text and the calls of every batch once, in order. */
  lemma CompleteCarriesAll(events: seq<Event>)
    ensures EmittedText(Complete(events)) == TextOf(Live(events))
    ensures EmittedCalls(Complete(events)) == CallsOf(Closed(Live(events)) + [Open(Live(events))])
  {
    hide CallsOf, EmittedText, EmittedCalls, Flushed, Collected, Absorb, Emitted, TextOf, Open, Closed, SawFinish;
    var live := Live(events);
    EmittedInOrder(live);
    EmitBatch(Emitted(live), Open(live));
    CallsOfNext(Closed(live), Open(live));
    var body := Emitted(live) + Flushed(Open(live));
    EmitOne(body, Terminator(LastUsage(live)));
    assert body + [] == body;
  }

  predicate Reports(live: seq<Event>, n: nat) { n < |live| && live[n].UsageOnly? }

  lemma {:induction false} UsageIsLast(live: seq<Event>)
    ensures LastUsage(live) == None <==> forall n: nat :: !Reports(live, n)
    ensures LastUsage(live).Some? ==>
              exists n: nat | Reports(live, n) :: live[n].usage == LastUsage(live).value && forall m | m > n ::
                  !Reports(live, m)
  {
    if live != [] {
      var n := |live| - 1;
      UsageIsLast(live[..n]);
      assert forall m: nat | m < n :: live[..n][m] == live[m];
      assert forall m: nat | m < n :: Reports(live[..n], m) <==> Reports(live, m);
      if live[n].UsageOnly? {
        assert Reports(live, n);
      } else if LastUsage(live).Some? {
        var k: nat :| Reports(live[..n], k) && live[..n][k].usage == LastUsage(live).value
                      && forall m | m > k :: !Reports(live[..n], m);
        assert Reports(live, k);
      }
    }
  }

  /** A stream that ended properly has a terminator at its end, and nowhere else, exactly when the terminator
      line, a finish reason or a usage report was read; it carries the last usage reported. */
  lemma CompleteEnds(events: seq<Event>)
    ensures var live, out := Live(events), Complete(events);
            var ends := || |live| < |events| || (exists n: nat :: Reports(live, n))
                        || exists n | 0 <= n < |live| :: live[n].Choice? && live[n].finish;
            && (forall i | 0 <= i < |out| - 1 :: !out[i].Terminator?)
            && (out != [] && out[|out| - 1].Terminator? <==> ends)
            && (ends && (forall n: nat :: !Reports(live, n)) ==> out[|out| - 1].usage == None)
            && (forall n: nat | n < |live| && live[n].UsageOnly? && forall m | m > n :: !Reports(live, m) ::
                  out != [] && out[|out| - 1] == Terminator(Some(live[n].usage)))
  {
    hide Emitted, Flushed, Live, Open, LastUsage, Reports;
    var live := Live(events);
    EmittedInOrder(live);
    FlushedIsCalls(Open(live));
    UsageIsLast(live);
    var body := Emitted(live) + Flushed(Open(live));
    assert NoTerminator(body) && body + [] == body;
    forall n: nat | n < |live| && live[n].UsageOnly? && forall m | m > n :: !Reports(live, m)
      ensures LastUsage(live) == Some(live[n].usage)
    {
      ReportsAt(live, n);
      OneLast(live, n);
    }
  }

  lemma ReportsAt(live: seq<Event>, n: nat)
    requires n < |live| && live[n].UsageOnly?
    ensures Reports(live, n)
  {
  }

  lemma OneLast(live: seq<Event>, n: nat)
    requires Reports(live, n) && forall m | m > n :: !Reports(live, m)
    ensures n < |live| && live[n].UsageOnly? && LastUsage(live) == Some(live[n].usage)
  {
    UsageIsLast(live);
  }

  /** The response stream, chunk by chunk. A line that is not JSON aborts it, after what was read before
      has been emitted. */
  method ChatStream(events: seq<Event>) returns (chunks: seq<StreamChunk>, failed: bool)
    ensures failed <==> |Live(events)| < |events| && events[|Live(events)|].Garbage?
    ensures chunks == if failed then Emitted(Live(events)) else Complete(events)
  {
    hide Live, Collected, Absorb, Open, SawFinish, LastUsage, Emitted;
    StartsEmpty();
    chunks := [];
    var builder := new Builder();
    var finished := false;
    var usage := None;
    var n := 0;
    while n < |events| && !events[n].DoneMark?
      invariant 0 <= n <= |events|
      invariant forall k | 0 <= k < n :: !Stops(events[k])
      invariant builder.buf == Absorb(map[], Open(events[..n]))
      invariant chunks == Emitted(events[..n])
      invariant finished == SawFinish(events[..n])
      invariant usage == LastUsage(events[..n])
    {
      match events[n] {
        case Skip =>
          SameBatches(events, n);
        case Garbage =>
          LiveIs(events, n);
          return chunks, true;
        case UsageOnly(u) =>
          SameBatches(events, n);
          usage := Some(u);
        case Choice(text, calls, finish) =>
          ChoiceBatches(events, n);
          if text != "" {
            chunks := chunks + [TextChunk(text)];
          }
          AbsorbAppend(map[], Open(events[..n]), calls);
          builder.Feed(calls);
          if finish {
            var batch := builder.TakeAll();
            if batch != [] {
              chunks := chunks + [CallsChunk(batch)];
            }
            finished := true;
          }
      }
      n := n + 1;
    }
    LiveIs(events, n);
    finished := finished || n < |events|;
    var leftovers := builder.TakeAll();
    if leftovers != [] {
      chunks := chunks + [CallsChunk(leftovers)];
    }
    if finished || usage.Some? {
      chunks := chunks + [Terminator(usage)];
    }
    failed := false;
  }

  lemma {:induction false} LiveIs(events: seq<Event>, n: nat)
    requires n <= |events| && (forall k | 0 <= k < n :: !Stops(events[k])) && (n < |events| ==> Stops(events[n]))
    ensures Live(events) == events[..n]
  {
    if n > 0 {
      LiveIs(events[1..], n - 1);
      assert events[..n] == [events[0]] + events[1..][..n - 1];
    }
  }
}
