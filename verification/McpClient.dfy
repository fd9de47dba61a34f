/** The JSON-RPC demultiplexer of the MCP client: requests get fresh ids, replies are matched to
    waiting futures by id, and end of file and close fail whoever still waits. A future is named
    by the id of the request that made it. */
module McpClient {

  type Payload = string

  /** The `id` member of a frame, as JSON gives it. */
  datatype FrameId = Number(value: real) | Boolean(b: bool) | Text(text: string) | Null | Composite

  datatype Frame = Frame(id: FrameId, hasError: bool, body: Payload)

  datatype Reason = RpcError(body: Payload) | ServerExited | ClientClosed

  datatype Future = Waiting | Result(value: Payload) | Failed(reason: Reason) | Cancelled

  /** `AtTop` is about to test the loop guard; `Reading` waits for a line. */
  datatype Reader = Off | AtTop | Reading

  /** The frame's id is that number, or is `true` and the number is 1. */
  predicate Carries(f: Frame, id: int) {
    f.id == Number(id as real) || (id == 1 && f.id == Boolean(true))
  }

  /** The request id a frame's id equals: dictionary keys compare `1`, `1.0` and `true` as equal. */
  function KeyOf(id: FrameId): (key: int)
    ensures forall n: int, hasError, body | n != 0 :: key == n <==> Carries(Frame(id, hasError, body), n)
  {
    match id
    case Number(v) => if v == v.Floor as real then v.Floor else 0
    case Boolean(b) => if b then 1 else 0
    case _ => 0
  }

  function Reply(f: Frame): Future {
    if f.hasError then Failed(RpcError(f.body)) else Result(f.body)
  }

  datatype Op =
    | Start
    | Poll                    // the reader tests its guard for the first time
    | Request
    | Leave(id: int)          // a caller fails or is cancelled while still sending
    | Cancel(id: int)         // a caller is cancelled while it waits
    | Wake(id: int)           // a caller whose future is done resumes
    | Junk                    // a blank line, no JSON, no object, or a notification
    | Line(frame: Frame)
    | Eof
    | Crash                   // any exception out of the reader
    | BeginClose
    | EndClose

  /** `left` records callers that went away before their future was done. */
  datatype State = State(
    started: bool, closing: bool, reader: Reader, nextId: int,
    pending: set<int>, futures: map<int, Future>, ghost left: set<int>)
  {
    predicate Awaits(id: int) { id in pending && id in futures && futures[id] == Waiting }

    predicate Done(id: int) { id in futures && futures[id] != Waiting }

    function FailAll(reason: Reason): map<int, Future> {
      map id | id in futures :: if Awaits(id) then Failed(reason) else futures[id]
    }

    function NextTurn(): Reader { if closing then Off else Reading }
  }

  const INIT := State(false, false, Off, 1, {}, map[], {})

  ghost function Step(s: State, op: Op): State {
    match op
    case Start => if s.started then s else s.(started := true, reader := AtTop)
    case Poll => if s.reader == AtTop then s.(reader := s.NextTurn()) else s
    case Request =>
      if !s.started then s
      else s.(nextId := s.nextId + 1, pending := s.pending + {s.nextId}, futures := s.futures[s.nextId := Waiting])
    case Leave(id) =>
      if s.Awaits(id) then s.(pending := s.pending - {id}, left := s.left + {id}) else s
    case Cancel(id) => if s.Awaits(id) then s.(futures := s.futures[id := Cancelled]) else s
    case Wake(id) => if s.Done(id) then s.(pending := s.pending - {id}) else s
    case Junk => if s.reader == Reading then s.(reader := s.NextTurn()) else s
    case Line(f) =>
      if s.reader != Reading then s
      else if f.id.Composite? then s.(reader := Off)
      else if s.Awaits(KeyOf(f.id)) then s.(futures := s.futures[KeyOf(f.id) := Reply(f)], reader := s.NextTurn())
      else s.(reader := s.NextTurn())
    case Eof => if s.reader == Reading then s.(futures := s.FailAll(ServerExited), reader := Off) else s
    case Crash => s.(reader := Off)
    case BeginClose => s.(closing := true)
    case EndClose =>
      if !s.closing then s
      else s.(started := false, reader := Off, futures := s.FailAll(ClientClosed), pending := {})
  }

  ghost function Run(s: State, ops: seq<Op>): State {
    if ops == [] then s else Step(Run(s, ops[..|ops| - 1]), ops[|ops| - 1])
  }

  /** Ids 1 up to the next one have each been issued once; a caller that is no longer registered
      has its answer or walked away. */
  ghost predicate Inv(s: State) {
    && s.nextId >= 1
    && (forall id :: id in s.futures <==> 1 <= id < s.nextId)
    && s.pending <= s.futures.Keys
    && (forall id | id in s.futures :: id in s.pending || id in s.left || s.Done(id))
  }

  lemma StepKeepsInv(s: State, op: Op)
    requires Inv(s)
    ensures Inv(Step(s, op))
    ensures s.nextId <= Step(s, op).nextId
  {
  }

  lemma {:induction false} RunKeepsInv(s: State, ops: seq<Op>)
    requires Inv(s)
    ensures Inv(Run(s, ops)) && s.nextId <= Run(s, ops).nextId
  {
    if ops != [] {
      RunKeepsInv(s, ops[..|ops| - 1]);
      StepKeepsInv(Run(s, ops[..|ops| - 1]), ops[|ops| - 1]);
    }
  }

  lemma {:induction false} RunAppend(s: State, a: seq<Op>, b: seq<Op>)
    ensures Run(s, a + b) == Run(Run(s, a), b)
  {
    if b == [] {
      assert a + b == a;
    } else {
      assert (a + b)[..|a + b| - 1] == a + b[..|b| - 1];
      RunAppend(s, a, b[..|b| - 1]);
    }
  }

  // --- Request ids ---------------------------------------------------------------------------

  /** Whether the n-th operation of a run sends a request, and under which id. */
  ghost predicate Sends(s: State, ops: seq<Op>, n: nat) {
    n < |ops| && ops[n].Request? && Run(s, ops[..n]).started
  }

  ghost function SentId(s: State, ops: seq<Op>, n: nat): int
    requires Sends(s, ops, n)
  {
    Run(s, ops[..n]).nextId
  }

  /** Ids strictly increase over any run, so none is ever used twice. */
  lemma IdsNeverReused(s: State, ops: seq<Op>, i: nat, k: nat)
    requires Inv(s) && i < k && Sends(s, ops, i) && Sends(s, ops, k)
    ensures SentId(s, ops, i) < SentId(s, ops, k)
  {
    assert ops[..i + 1][..i] == ops[..i];
    assert ops[..k] == ops[..i + 1] + ops[i + 1..k];
    RunAppend(s, ops[..i + 1], ops[i + 1..k]);
    RunKeepsInv(s, ops[..i + 1]);
    RunKeepsInv(Run(s, ops[..i + 1]), ops[i + 1..k]);
  }

  // --- Completion ----------------------------------------------------------------------------

  lemma DoneStaysStep(s: State, op: Op, id: int)
    requires Inv(s) && s.Done(id)
    ensures Step(s, op).Done(id) && Step(s, op).futures[id] == s.futures[id]
  {
  }

  /** A completed future keeps its outcome over any run: each completes at most once. */
  lemma {:induction false} CompletesAtMostOnce(s: State, ops: seq<Op>, id: int)
    requires Inv(s) && s.Done(id)
    ensures Run(s, ops).Done(id) && Run(s, ops).futures[id] == s.futures[id]
  {
    if ops != [] {
      var init := ops[..|ops| - 1];
      CompletesAtMostOnce(s, init, id);
      RunKeepsInv(s, init);
      DoneStaysStep(Run(s, init), ops[|ops| - 1], id);
    }
  }

  /** The operation that may give a waiting future this outcome. */
  ghost predicate Explains(s: State, op: Op, id: int, outcome: Future) {
    match outcome
    case Waiting => false
    case Result(v) => 
      op.Line? && Carries(op.frame, id) && !op.frame.hasError && op.frame.body == v && s.reader == Reading
    case Failed(RpcError(e)) => 
      op.Line? && Carries(op.frame, id) && op.frame.hasError && op.frame.body == e && s.reader == Reading
    case Failed(ServerExited) => op == Eof && s.reader == Reading
    case Failed(ClientClosed) => op == EndClose && s.closing
    case Cancelled => op == Cancel(id)
  }

  lemma StepExplains(s: State, op: Op, id: int)
    requires Inv(s) && Step(s, op).Done(id) && !s.Done(id)
    ensures s.Awaits(id) && Explains(s, op, id, Step(s, op).futures[id])
  {
  }

  /** Every outcome has its cause: a result or error came from a frame with that very number as id - or
      with `true` for request 1 - read while its caller was waiting, and so on for the others. */
  lemma {:induction false} EveryOutcomeHasItsCause(ops: seq<Op>, id: int)
    requires Run(INIT, ops).Done(id)
    ensures exists n: nat :: n < |ops| && Run(INIT, ops[..n]).Awaits(id)
                             && Explains(Run(INIT, ops[..n]), ops[n], id, Run(INIT, ops).futures[id])
  {
    if ops != [] {
      var m := |ops| - 1;
      var init := ops[..m];
      RunKeepsInv(INIT, init);
      var before := Run(INIT, init);
      if before.Done(id) {
        EveryOutcomeHasItsCause(init, id);
        var n: nat :| n < m && Run(INIT, init[..n]).Awaits(id)
                      && Explains(Run(INIT, init[..n]), init[n], id, before.futures[id]);
        DoneStaysStep(before, ops[m], id);
        assert init[..n] == ops[..n];
        assert n < |ops| && Run(INIT, ops[..n]).Awaits(id)
               && Explains(Run(INIT, ops[..n]), ops[n], id, Run(INIT, ops).futures[id]);
      } else {
        StepExplains(before, ops[m], id);
        assert Run(INIT, ops[..m]).Awaits(id) && Explains(Run(INIT, ops[..m]), ops[m], id, Run(INIT, ops).futures[id]);
      }
    }
  }

  function Lines(fs: seq<Frame>): (ops: seq<Op>)
    ensures |ops| == |fs| && forall i | 0 <= i < |fs| :: ops[i] == Line(fs[i])
  {
    seq(|fs|, i requires 0 <= i < |fs| => Line(fs[i]))
  }

  /** Frames for nobody - unknown ids, ids already answered, ids that are no numbers - change no
      future and nobody's registration, however many arrive. */
  lemma {:induction false} UnknownIdsChangeNothing(s: State, fs: seq<Frame>)
    requires Inv(s) && forall i, id | 0 <= i < |fs| && s.Awaits(id) :: !Carries(fs[i], id)
    ensures Run(s, Lines(fs)) == s.(reader := Run(s, Lines(fs)).reader)
  {
    if fs != [] {
      var init, last := fs[..|fs| - 1], fs[|fs| - 1];
      UnknownIdsChangeNothing(s, init);
      assert Lines(fs)[..|fs| - 1] == Lines(init);
      NobodyAwaits(s, last);
    }
  }

  lemma NobodyAwaits(s: State, f: Frame)
    requires Inv(s) && forall id | s.Awaits(id) :: !Carries(f, id)
    ensures !s.Awaits(KeyOf(f.id))
  {
    KeyIsCarried(f);
  }

  lemma KeyIsCarried(f: Frame)
    ensures KeyOf(f.id) != 0 ==> Carries(f, KeyOf(f.id))
    ensures forall n: int | n != 0 && Carries(f, n) :: KeyOf(f.id) == n
  {
    assert f == Frame(f.id, f.hasError, f.body);
  }

  /** When the server goes away everyone then waiting is answered with that, over any run, and
      nobody who waits is overlooked. */
  lemma EofCompletesAll(ops: seq<Op>)
    requires Run(INIT, ops).reader == Reading
    ensures var s := Run(INIT, ops);
            forall id | 1 <= id < s.nextId ::
              && (Step(s, Eof).Done(id) || id in s.left)
              && (s.Awaits(id) ==> Step(s, Eof).futures[id] == Failed(ServerExited))
              && (s.Done(id) ==> Step(s, Eof).futures[id] == s.futures[id])
  {
    RunKeepsInv(INIT, ops);
  }

  /** After a close every future ever made is done, except those whose callers left first. */
  lemma CloseCompletesAll(ops: seq<Op>)
    requires Run(INIT, ops).closing
    ensures var s := Step(Run(INIT, ops), EndClose);
            s.pending == {} && forall id | 1 <= id < s.nextId :: s.Done(id) || id in s.left
  {
    RunKeepsInv(INIT, ops);
    StepKeepsInv(Run(INIT, ops), EndClose);
  }

  /** A frame with id `true` does answer the first request. */
  lemma TrueAnswersTheFirst(body: Payload)
    ensures var ops := [Start, Poll, Request, Line(Frame(Boolean(true), false, body))];
            1 in Run(INIT, ops).futures && Run(INIT, ops).futures[1] == Result(body)
  {
    var ops := [Start, Poll, Request, Line(Frame(Boolean(true), false, body))];
    assert ops[..3] == [Start, Poll, Request] && [Start, Poll, Request][..2] == [Start, Poll];
    assert [Start, Poll][..1] == [Start] && [Start][..0] == [];
    assert Run(INIT, [Start]) == Step(INIT, Start);
    assert Run(INIT, [Start, Poll]) == Step(Step(INIT, Start), Poll);
    assert Run(INIT, ops[..3]) == Step(Step(Step(INIT, Start), Poll), Request);
  }

  // --- Replies in any order ------------------------------------------------------------------

  /** The first frame of a batch that carries an id, -1 when none does. */
  function FirstFor(fs: seq<Frame>, id: int): (n: int)
    ensures n == -1 || (0 <= n < |fs| && Carries(fs[n], id))
    ensures forall i | 0 <= i < (if n == -1 then |fs| else n) :: !Carries(fs[i], id)
  {
    if fs == [] then -1
    else
      var m := |fs| - 1;
      var before := FirstFor(fs[..m], id);
      assert forall i | 0 <= i < m :: fs[..m][i] == fs[i];
      if before >= 0 then before else if Carries(fs[m], id) then m else -1
  }

  /** While the reader runs, a reply to a waiting caller gives it exactly what the frame says, an error
      for an error, and touches nobody else; the reader goes on unless the client is closing. */
  lemma ReplyIsDelivered(s: State, f: Frame, id: int)
    requires Inv(s) && s.reader == Reading && s.Awaits(id) && Carries(f, id)
    ensures Step(s, Line(f)).futures == s.futures[id := if f.hasError then Failed(RpcError(f.body)) else Result(f.body)]
    ensures Step(s, Line(f)) == s.(futures := Step(s, Line(f)).futures, reader := if s.closing then Off else Reading)
  {
    KeyIsCarried(f);
  }

  /** What a waiting caller has after a batch: what the first frame with its id says, or nothing yet. */
  predicate Answered(s: State, fs: seq<Frame>, id: int, now: Future)
    requires id in s.futures
  {
    var n := FirstFor(fs, id);
    if s.Awaits(id) && n >= 0 then now == (if fs[n].hasError then Failed(RpcError(fs[n].body)) else Result(fs[n].body))
    else now == s.futures[id]
  }

  /** While the reader runs, a batch of frames - strangers, repeats and notices to nobody included -
      gives each waiting caller the first frame with its id and touches nobody else, so frames for
      different callers may come in any order. */
  lemma {:induction false} RepliesReachTheirCallers(s: State, fs: seq<Frame>)
    requires Inv(s) && s.reader == Reading && !s.closing
    requires forall i | 0 <= i < |fs| :: !fs[i].id.Composite?
    ensures var t := Run(s, Lines(fs)); t == s.(futures := t.futures) && t.futures.Keys == s.futures.Keys
    ensures forall id | id in s.futures :: Answered(s, fs, id, Run(s, Lines(fs)).futures[id])
  {
    hide FirstFor, Carries, KeyOf, Step, Answered;
    if fs != [] {
      var m := |fs| - 1;
      var init := fs[..m];
      assert Lines(fs)[..m] == Lines(init);
      RepliesReachTheirCallers(s, init);
      var t := Run(s, Lines(init));
      assert Run(s, Lines(fs)) == Step(t, Line(fs[m])) && fs == init + [fs[m]];
      FrameKeepsReader(t, fs[m]);
      forall id | id in s.futures ensures Answered(s, fs, id, Run(s, Lines(fs)).futures[id]) {
        NextFrame(s, t, init, fs[m], id);
      }
    } else {
      assert Lines(fs) == [];
      forall id | id in s.futures { NoFrames(s, id); }
    }
  }

  lemma NoFrames(s: State, id: int)
    requires id in s.futures
    ensures Answered(s, [], id, s.futures[id])
  {
  }

  lemma FrameKeepsReader(t: State, f: Frame)
    requires t.reader == Reading && !t.closing && !f.id.Composite?
    ensures var u := Step(t, Line(f)); u == t.(futures := u.futures) && u.futures.Keys == t.futures.Keys
  {
  }

  lemma NextFrame(s: State, t: State, fs: seq<Frame>, f: Frame, id: int)
    requires Inv(s) && t == s.(futures := t.futures) && t.futures.Keys == s.futures.Keys && id in s.futures
    requires t.reader == Reading && !f.id.Composite? && Answered(s, fs, id, t.futures[id])
    ensures id in Step(t, Line(f)).futures && Answered(s, fs + [f], id, Step(t, Line(f)).futures[id])
  {
    hide FirstFor, Carries, KeyOf;
    KeyIsCarried(f);
    FirstForNext(fs, f, id);
  }

  lemma FirstForNext(fs: seq<Frame>, f: Frame, id: int)
    ensures FirstFor([], id) == -1
    ensures FirstFor(fs + [f], id)
            == if FirstFor(fs, id) >= 0 then FirstFor(fs, id) else if Carries(f, id) then |fs| else -1
    ensures FirstFor(fs, id) >= 0 ==> (fs + [f])[FirstFor(fs, id)] == fs[FirstFor(fs, id)]
    ensures (fs + [f])[|fs|] == f
  {
    assert (fs + [f])[..|fs|] == fs;
  }

  // --- What the other steps do ---------------------------------------------------------------

  /** A client that is started reads, and gives every request a future of its own. */
  lemma StartedClientsRead(s: State)
    requires Inv(s)
    ensures !s.started && !s.closing ==>
              Step(Step(s, Start), Poll) == s.(started := true, reader := Reading)
    ensures s.started ==>
              && Step(s, Request).Awaits(s.nextId) && s.nextId !in s.futures
              && Step(s, Request) == s.(nextId := s.nextId + 1, pending := s.pending + {s.nextId},
                                        futures := s.futures[s.nextId := Waiting])
    ensures s.reader == Reading && !s.closing ==> Step(s, Junk) == s
  {
  }

  /** A caller that stops waiting is cancelled or forgotten, a caller that was answered is forgotten, and
      nobody else notices. */
  lemma CallersLeaveAlone(s: State, id: int)
    requires Inv(s)
    ensures s.Awaits(id) ==>
              && Step(s, Cancel(id)) == s.(futures := s.futures[id := Cancelled])
              && Step(s, Leave(id)) == s.(pending := s.pending - {id}, left := s.left + {id})
    ensures s.Done(id) ==> Step(s, Wake(id)) == s.(pending := s.pending - {id})
  {
  }

  /** Closing stops the reader at its next turn; at the end whoever waits is told so. */
  lemma ClosingEnds(s: State)
    ensures Step(s, BeginClose) == s.(closing := true)
    ensures s.closing ==>
              var t := Step(s, EndClose);
              && !t.started && t.reader == Off && t.pending == {} && t.futures.Keys == s.futures.Keys
              && forall id | id in s.futures ::
                   t.futures[id] == if s.Awaits(id) then Failed(ClientClosed) else s.futures[id]
  {
  }

  // --- A reader that has stopped -------------------------------------------------------------

  /** The reader will never read again: it died under a running client, or the client was closed. */
  ghost predicate Deaf(s: State) {
    (s.closing && s.reader != Reading) || (s.started && s.reader == Off)
  }

  /** Once deaf, always deaf, restarted or not; no reply is ever delivered again. */
  lemma {:induction false} DeafForGood(s: State, ops: seq<Op>)
    requires Inv(s) && Deaf(s)
    ensures Deaf(Run(s, ops))
    ensures forall id | Run(s, ops).Done(id) && !s.Done(id) ::
              Run(s, ops).futures[id] == Cancelled || Run(s, ops).futures[id] == Failed(ClientClosed)
  {
    if ops != [] {
      var init := ops[..|ops| - 1];
      DeafForGood(s, init);
      RunKeepsInv(s, init);
      var before := Run(s, init);
      forall id | Run(s, ops).Done(id) && !s.Done(id)
        ensures Run(s, ops).futures[id] == Cancelled || Run(s, ops).futures[id] == Failed(ClientClosed)
      {
        if before.Done(id) {
          DoneStaysStep(before, ops[|ops| - 1], id);
        } else {
          StepExplains(before, ops[|ops| - 1], id);
        }
      }
    }
  }

  /** A single frame whose id is a list or an object stops the reader for good. */
  lemma CompositeIdDeafens(s: State, f: Frame)
    requires s.started && s.reader == Reading && f.id.Composite?
    ensures Deaf(Step(s, Line(f))) && Step(s, Line(f)).futures == s.futures
  {
  }

  // --- The client ----------------------------------------------------------------------------

  class Client {
    var started: bool
    var closing: bool
    var reader: Reader
    var nextId: int
    var pending: set<int>
    var futures: map<int, Future>
    ghost var left: set<int>

    constructor ()
      ensures Abstract() == INIT
    {
      started, closing, reader, nextId := false, false, Off, 1;
      pending, futures, left := {}, map[], {};
    }

    ghost function Abstract(): State
      reads this
    {
      State(started, closing, reader, nextId, pending, futures, left)
    }

    /** False when the client is already started. */
    method Launch() returns (ok: bool)
      modifies this
      ensures ok == !old(started) && Abstract() == Step(old(Abstract()), Start)
    {
      if started {
        return false;
      }
      started, reader := true, AtTop;
      return true;
    }

    /** Registers a future under a fresh id; nothing happens unless the client is started. */
    method Register() returns (id: int)
      requires Inv(Abstract())
      modifies this
      ensures Abstract() == Step(old(Abstract()), Request) && Inv(Abstract())
      ensures old(started) ==> id !in old(futures) && Abstract().Awaits(id) && id == old(nextId)
      ensures !old(started) ==> id == 0
    {
      if !started {
        return 0;
      }
      id := nextId;
      nextId := nextId + 1;
      futures := futures[id := Waiting];
      pending := pending + {id};
    }

    /** One line from the server. */
    method OnLine(f: Frame)
      requires Inv(Abstract()) && reader == Reading
      modifies this
      ensures Abstract() == Step(old(Abstract()), Line(f)) && Inv(Abstract())
    {
      StepKeepsInv(Abstract(), Line(f));
      if f.id.Composite? {
        reader := Off;
        return;
      }
      reader := if closing then Off else Reading;
      var key := KeyOf(f.id);
      if key !in pending || futures[key] != Waiting {
        return;
      }
      futures := futures[key := if f.hasError then Failed(RpcError(f.body)) else Result(f.body)];
    }

    method FailPending(reason: Reason)
      requires Inv(Abstract())
      modifies this`futures
      ensures futures == old(Abstract()).FailAll(reason)
    {
      var todo := pending;
      while todo != {}
        invariant todo <= pending
        invariant futures.Keys == old(futures).Keys
        invariant forall id | id in futures ::
            futures[id] == if id !in todo && old(Abstract()).Awaits(id) then Failed(reason) else old(futures)[id]
        decreases |todo|
      {
        assert (forall y :: y !in todo) ==> todo == {};
        var id :| id in todo;
        if futures[id] == Waiting {
          futures := futures[id := Failed(reason)];
        }
        todo := todo - {id};
      }
    }

    method OnEof()
      requires Inv(Abstract()) && reader == Reading
      modifies this
      ensures Abstract() == Step(old(Abstract()), Eof) && Inv(Abstract())
    {
      StepKeepsInv(Abstract(), Eof);
      FailPending(ServerExited);
      reader := Off;
    }

    /** The caller's side when it stops waiting: its id is forgotten either way. */
    method Unregister(id: int)
      requires Inv(Abstract()) && id in pending
      modifies this
      ensures Abstract() == Step(old(Abstract()), if old(Abstract()).Done(id) then Wake(id) else Leave(id))
      ensures Inv(Abstract()) && id !in pending
    {
      if futures[id] == Waiting {
        left := left + {id};
      }
      pending := pending - {id};
    }

    method MarkClosing()
      modifies this
      ensures Abstract() == Step(old(Abstract()), BeginClose)
    {
      closing := true;
    }

    method FinishClose()
      requires Inv(Abstract()) && closing
      modifies this
      ensures Abstract() == Step(old(Abstract()), EndClose) && Inv(Abstract())
      ensures forall id | id in old(pending) :: Abstract().Done(id)
    {
      StepKeepsInv(Abstract(), EndClose);
      started, reader := false, Off;
      FailPending(ClientClosed);
      pending := {};
    }
  }
}
