/** The fixed-window rate limiter over a Redis counter. Times are in milliseconds. INCR and the
    EXPIRE after a first hit are one step; either may fail, and then the hit is let through. */
module RateLimiter {

  import opened Wrappers

  /** A counter key: how often it was hit, when it was created, and when Redis drops it. */
  datatype Counter = Counter(count: int, born: int, expires: Option<int>)

  /** Where talking to Redis goes wrong, and whether the command had been applied by then. */
  datatype Fault = Fine | IncrNotApplied | IncrApplied | ExpireNotApplied | ExpireApplied | TtlFails

  /** One call: when, and what goes wrong. */
  datatype Hit = Hit(now: int, fault: Fault)

  datatype Verdict = Allowed | Blocked(retryAfter: int)

  datatype Limits = Limits(limit: int, windowS: int) {
    predicate Sane() { limit > 0 && windowS > 0 }

    function Window(): int { 1000 * windowS }

    predicate Alive(c: Option<Counter>, now: int) {
      c.Some? && (c.value.expires.None? || now < c.value.expires.value)
    }

    /** What Redis answers to TTL: whole seconds, rounded to the nearest; -1 when nothing is set. */
    function Ttl(c: Counter, now: int): int {
      if c.expires.None? then -1 else (c.expires.value - now + 500) / 1000
    }

    /** The counter after INCR. */
    function Incremented(c: Option<Counter>, now: int): (d: Counter) {
      if Alive(c, now) then c.value.(count := c.value.count + 1) else Counter(1, now, None)
    }

    function Step(c: Option<Counter>, h: Hit): Option<Counter> {
      if h.fault.IncrNotApplied? then c else
        var d := Incremented(c, h.now);
        if d.count != 1 || h.fault.IncrApplied? || h.fault.ExpireNotApplied? then Some(d)
        else Some(d.(expires := Some(h.now + Window())))
    }

    /** Whether an error surfaces: EXPIRE is only sent on a first hit, TTL only over the limit. */
    predicate Raises(c: Option<Counter>, h: Hit) {
      match h.fault
      case Fine => false
      case IncrNotApplied => true
      case IncrApplied => true
      case ExpireNotApplied => Incremented(c, h.now).count == 1
      case ExpireApplied => Incremented(c, h.now).count == 1
      case TtlFails => Incremented(c, h.now).count > limit
    }

    function Answer(c: Option<Counter>, h: Hit): Verdict {
      if Raises(c, h) then Allowed
      else if Incremented(c, h.now).count > limit then Blocked(Max(Ttl(Incremented(c, h.now), h.now), 1))
      else Allowed
    }

    /** Let through by the counter rather than by an error. */
    predicate Admits(c: Option<Counter>, h: Hit) { !Raises(c, h) && Answer(c, h).Allowed? }

    function Run(c: Option<Counter>, hits: seq<Hit>): Option<Counter> {
      if hits == [] then c else Step(Run(c, hits[..|hits| - 1]), hits[|hits| - 1])
    }

    /** How many hits of a run on a fresh key were admitted at a time in [from, to). */
    function Admitted(hits: seq<Hit>, from: int, to: int): nat {
      if hits == [] then 0 else
        var init, h := hits[..|hits| - 1], hits[|hits| - 1];
        Admitted(init, from, to) + if from <= h.now < to && Admits(Run(None, init), h) then 1 else 0
    }

    /** How many were admitted by the counter created at `born`. */
    function AdmittedBy(hits: seq<Hit>, born: int): nat {
      if hits == [] then 0 else
        var init, h := hits[..|hits| - 1], hits[|hits| - 1];
        AdmittedBy(init, born)
        + if Admits(Run(None, init), h) && Run(None, hits).value.born == born then 1 else 0
    }
  }

  // --- One hit, in plain terms ---------------------------------------------------------------

  /** The hits the counter has seen when this one is counted. */
  function Seen(c: Option<Counter>, now: int): int {
    if c.Some? && (c.value.expires.None? || now < c.value.expires.value) then c.value.count + 1 else 1
  }

  /** A command that fails lets the hit through, if it is sent at all. Otherwise a hit is let through up to
      the limit, and beyond it told to wait for what is left of the window: at least a second, else the
      number of seconds nearest to it. */
  lemma AnswerIs(l: Limits, c: Option<Counter>, h: Hit)
    ensures var seen, answer := Seen(c, h.now), l.Answer(c, h);
            var fails := || h.fault.IncrNotApplied? || h.fault.IncrApplied?
                         || ((h.fault.ExpireNotApplied? || h.fault.ExpireApplied?) && seen == 1)
                         || (h.fault.TtlFails? && seen > l.limit);
            && (fails ==> answer == Allowed)
            && (!fails ==> (answer.Allowed? <==> seen <= l.limit))
            && (answer.Blocked? && seen > 1 && c.value.expires.None? ==> answer.retryAfter == 1)
            && (answer.Blocked? && seen > 1 && c.value.expires.Some? ==>
                  var left, told := c.value.expires.value - h.now, 1000 * answer.retryAfter;
                  (told == 1000 && left < 1500) || (told > 1000 && left - 500 < told <= left + 500))
  {
  }

  /** A hit is counted unless INCR failed; the first of a window opens it, for its whole length unless the
      EXPIRE is lost; later ones leave its end alone. */
  lemma StepIs(l: Limits, c: Option<Counter>, h: Hit)
    requires c.Some? ==> c.value.count >= 1
    ensures h.fault.IncrNotApplied? ==> l.Step(c, h) == c
    ensures !h.fault.IncrNotApplied? && Seen(c, h.now) > 1 ==>
              l.Step(c, h) == Some(Counter(Seen(c, h.now), c.value.born, c.value.expires))
    ensures !h.fault.IncrNotApplied? && Seen(c, h.now) == 1 ==>
              l.Step(c, h) == Some(Counter(1, h.now, if h.fault.IncrApplied? || h.fault.ExpireNotApplied? then None
                                                     else Some(h.now + 1000 * l.windowS)))
  {
  }

  predicate Timed(hits: seq<Hit>) {
    forall i, j | 0 <= i <= j < |hits| :: hits[i].now <= hits[j].now
  }

  /** A counter lives for one window from its creation, or for ever when EXPIRE was lost. */
  lemma {:induction false} RunShape(l: Limits, hits: seq<Hit>)
    requires l.Sane() && Timed(hits)
    ensures l.Run(None, hits).Some? ==>
              var c := l.Run(None, hits).value;
              c.count >= 1 && hits != [] && c.born <= hits[|hits| - 1].now
              && (c.expires == None || c.expires == Some(c.born + l.Window()))
  {
    if hits != [] {
      RunShape(l, hits[..|hits| - 1]);
    }
  }

  function Min(a: int, b: int): int { if a <= b then a else b }

  lemma {:induction false} WindowTally(l: Limits, hits: seq<Hit>, born: int)
    requires l.Sane() && Timed(hits)
    ensures var c := l.Run(None, hits);
            l.AdmittedBy(hits, born) <=
            if c.None? || c.value.born < born then 0 else if c.value.born == born then Min(c.value.count, l.limit)
                else l.limit
  {
    if hits != [] {
      WindowTally(l, hits[..|hits| - 1], born);
      RunShape(l, hits[..|hits| - 1]);
    }
  }

  /** Each window admits at most `limit` hits, over any timed run. */
  lemma AtMostLimitPerWindow(l: Limits, hits: seq<Hit>, born: int)
    requires l.Sane() && Timed(hits)
    ensures l.AdmittedBy(hits, born) <= l.limit
  {
    WindowTally(l, hits, born);
  }

  lemma {:induction false} IntervalTally(l: Limits, hits: seq<Hit>, from: int)
    requires l.Sane() && Timed(hits)
    ensures var c, n := l.Run(None, hits), l.Admitted(hits, from, from + l.Window());
            hits != [] && hits[|hits| - 1].now < from + l.Window() ==>
              n <= if c.None? then 0
                   else if c.value.born < from then Min(c.value.count, l.limit) - 1
                   else l.limit - 1 + Min(c.value.count, l.limit)
    ensures hits != [] && hits[|hits| - 1].now < from ==> l.Admitted(hits, from, from + l.Window()) == 0
    ensures l.Admitted(hits, from, from + l.Window()) <= 2 * l.limit - 1
  {
    if hits != [] {
      IntervalTally(l, hits[..|hits| - 1], from);
      RunShape(l, hits[..|hits| - 1]);
    }
  }

  /** Across a window boundary at most twice the limit, less the hit that opened the first window,
      gets through in any stretch as long as a window. */
  lemma AtMostTwiceTheLimit(l: Limits, hits: seq<Hit>, from: int, to: int)
    requires l.Sane() && Timed(hits) && to <= from + l.Window()
    ensures l.Admitted(hits, from, to) <= 2 * l.limit - 1
  {
    IntervalTally(l, hits, from);
    NarrowerAdmitsFewer(l, hits, from, to, from + l.Window());
  }

  lemma {:induction false} NarrowerAdmitsFewer(l: Limits, hits: seq<Hit>, from: int, to: int, to': int)
    requires to <= to'
    ensures l.Admitted(hits, from, to) <= l.Admitted(hits, from, to')
  {
    if hits != [] {
      NarrowerAdmitsFewer(l, hits[..|hits| - 1], from, to, to');
    }
  }

  function Burst(now: int, n: nat): (hits: seq<Hit>)
    ensures |hits| == n && forall i | 0 <= i < n :: hits[i] == Hit(now, Fine)
  {
    seq(n, _ => Hit(now, Fine))
  }

  /** One hit, then the rest of the limit just before the window ends, then the limit again. */
  function WorstCase(l: Limits): seq<Hit>
    requires l.Sane()
  {
    [Hit(0, Fine)] + Burst(l.Window() - 1, l.limit - 1) + Burst(l.Window(), l.limit)
  }

  lemma {:induction false} BurstAdds(l: Limits, hits: seq<Hit>, now: int, n: nat, from: int, to: int)
    requires from <= now < to
    requires l.Alive(l.Run(None, hits), now) && 1 <= l.Run(None, hits).value.count <= l.limit - n
    ensures l.Admitted(hits + Burst(now, n), from, to) == l.Admitted(hits, from, to) + n
    ensures var c := l.Run(None, hits); l.Run(None, hits + Burst(now, n)) == Some(c.value.(count := c.value.count + n))
  {
    hide Limits.Run, Limits.Admitted;
    if n == 0 {
      assert hits + Burst(now, n) == hits;
    } else {
      BurstAdds(l, hits, now, n - 1, from, to);
      OneMoreHit(l, hits + Burst(now, n - 1), Hit(now, Fine), from, to);
      assert hits + Burst(now, n) == hits + Burst(now, n - 1) + [Hit(now, Fine)];
    }
  }

  /** That bound is reached. */
  lemma TwiceTheLimitIsReached(l: Limits)
    requires l.Sane()
    ensures Timed(WorstCase(l))
    ensures l.Admitted(WorstCase(l), l.Window() - 1, 2 * l.Window() - 1) == 2 * l.limit - 1
  {
    hide Limits.Run, Limits.Admitted;
    var w := l.Window();
    var from, to := w - 1, 2 * w - 1;
    var first := [Hit(0, Fine)];
    OneMoreHit(l, [], Hit(0, Fine), from, to);
    assert [] + first == first;
    assert l.Run(None, []) == None && l.Admitted([], from, to) == 0 by { NoHits(l, from, to); }
    assert l.Run(None, first) == Some(Counter(1, 0, Some(w)));
    BurstAdds(l, first, w - 1, l.limit - 1, from, to);
    BurstAtBoundary(l, first + Burst(w - 1, l.limit - 1));
  }

  lemma NoHits(l: Limits, from: int, to: int)
    ensures l.Run(None, []) == None && l.Admitted([], from, to) == 0
  {
  }

  lemma OneMoreHit(l: Limits, hits: seq<Hit>, h: Hit, from: int, to: int)
    ensures l.Run(None, hits + [h]) == l.Step(l.Run(None, hits), h)
    ensures l.Admitted(hits + [h], from, to)
            == l.Admitted(hits, from, to) + if from <= h.now < to && l.Admits(l.Run(None, hits), h) then 1 else 0
  {
    assert (hits + [h])[..|hits|] == hits;
  }

  lemma BurstAtBoundary(l: Limits, half: seq<Hit>)
    requires l.Sane() && l.Run(None, half).Some? && l.Run(None, half).value.expires == Some(l.Window())
    ensures l.Admitted(half + Burst(l.Window(), l.limit), l.Window() - 1, 2 * l.Window() - 1)
            == l.Admitted(half, l.Window() - 1, 2 * l.Window() - 1) + l.limit
  {
    hide Limits.Run, Limits.Admitted;
    var w := l.Window();
    var from, to := w - 1, 2 * w - 1;
    var next := half + [Hit(w, Fine)];
    OneMoreHit(l, half, Hit(w, Fine), from, to);
    assert l.Run(None, next) == Some(Counter(1, w, Some(2 * w)));
    BurstAdds(l, next, w, l.limit - 1, from, to);
    assert half + Burst(w, l.limit) == next + Burst(w, l.limit - 1);
  }

  function Max(a: int, b: int): int { if a >= b then a else b }

  /** Hits inside the window leave its end where it is, so the first hit after it is admitted. */
  lemma {:induction false} WindowEnds(l: Limits, c: Counter, hits: seq<Hit>, later: Hit)
    requires l.Sane() && c.count >= 1 && c.expires.Some? && later.fault.Fine? && later.now >= c.expires.value
    requires forall i | 0 <= i < |hits| :: hits[i].now < c.expires.value
    ensures l.Run(Some(c), hits).Some? && l.Run(Some(c), hits).value.expires == c.expires
    ensures l.Run(Some(c), hits).value.count >= 1
    ensures l.Answer(l.Run(Some(c), hits), later).Allowed?
  {
    if hits != [] {
      WindowEnds(l, c, hits[..|hits| - 1], later);
    }
  }

  /** An exhausted counter stays exhausted while its window lasts. */
  lemma {:induction false} StaysExhausted(l: Limits, c: Counter, hits: seq<Hit>, later: Hit)
    requires l.Sane() && c.count >= l.limit && l.Alive(Some(c), later.now) && later.fault.Fine?
    requires forall i | 0 <= i < |hits| :: l.Alive(Some(c), hits[i].now)
    ensures l.Run(Some(c), hits).Some? && l.Run(Some(c), hits).value.expires == c.expires
    ensures l.Run(Some(c), hits).value.count >= l.limit
    ensures l.Answer(l.Run(Some(c), hits), later).Blocked?
  {
    if hits != [] {
      StaysExhausted(l, c, hits[..|hits| - 1], later);
    }
  }

  /** The announced delay is too short exactly when at least a second is left and the rest beyond
      whole seconds rounds down. */
  predicate Early(c: Counter, now: int) {
    c.expires.Some? ==> c.expires.value - now >= 1000 && 0 < (c.expires.value - now) % 1000 < 500
  }

  /** A blocked caller comes back when told or later, others having tried only inside the window:
      it is let in exactly when the window is over, and at the announced time the window is over
      exactly when the delay was not rounded down. */
  lemma RetryAfterIsSoundIff(l: Limits, c: Option<Counter>, h: Hit, others: seq<Hit>, later: Hit)
    requires l.Sane() && l.Answer(c, h).Blocked? && later.fault.Fine?
    requires forall i | 0 <= i < |others| :: l.Alive(l.Step(c, h), others[i].now)
    requires later.now >= h.now + 1000 * l.Answer(c, h).retryAfter
    ensures l.Answer(l.Run(l.Step(c, h), others), later).Allowed? <==> !l.Alive(l.Step(c, h), later.now)
    ensures !Early(l.Step(c, h).value, h.now) ==> l.Answer(l.Run(l.Step(c, h), others), later).Allowed?
    ensures Early(l.Step(c, h).value, h.now) && later.now == h.now + 1000 * l.Answer(c, h).retryAfter ==>
              l.Answer(l.Run(l.Step(c, h), others), later).Blocked?
  {
    var d := l.Step(c, h).value;
    if d.expires.Some? {
      RetryAfterCovers(l, d, h.now);
    }
    if l.Alive(Some(d), later.now) {
      StaysExhausted(l, d, others, later);
    } else {
      WindowEnds(l, d, others, later);
    }
  }

  /** Such runs exist: with one hit allowed in two seconds, a second one after 600 milliseconds is told
      to come back in one second and is blocked again when it does. */
  lemma RetryCanBeEarly()
    ensures var l, first, second := Limits(1, 2), Hit(0, Fine), Hit(600, Fine);
            && l.Answer(l.Run(None, [first]), second) == Blocked(1)
            && Early(l.Run(None, [first, second]).value, 600)
            && l.Answer(l.Run(None, [first, second]), Hit(1600, Fine)).Blocked?
  {
    var l, first, second := Limits(1, 2), Hit(0, Fine), Hit(600, Fine);
    assert [first][..0] == [] && [first, second][..1] == [first];
    assert l.Run(None, [first]) == Some(Counter(1, 0, Some(2000)));
    assert l.Run(None, [first, second]) == Some(Counter(2, 0, Some(2000)));
  }

  lemma RetryAfterCovers(l: Limits, c: Counter, now: int)
    requires c.expires.Some? && c.expires.value > now
    ensures Early(c, now) <==> now + 1000 * Max(l.Ttl(c, now), 1) < c.expires.value
  {
  }

  // --- Losing the EXPIRE ---------------------------------------------------------------------

  /** The hit of a run that created the counter now in place, -1 without one. */
  function Creator(l: Limits, hits: seq<Hit>): (n: int)
    ensures -1 <= n < |hits|
  {
    if hits == [] then -1
    else
      var init, h := hits[..|hits| - 1], hits[|hits| - 1];
      if h.fault.IncrNotApplied? || l.Alive(l.Run(None, init), h.now) then Creator(l, init) else |init|
  }

  /** Errors that lose the EXPIRE of the hit they befall. */
  predicate LosesExpire(f: Fault) { f.IncrApplied? || f.ExpireNotApplied? }

  /** A counter without an end was created by a hit whose EXPIRE was lost, and by no other. */
  lemma {:induction false} EndlessIffExpireLost(l: Limits, hits: seq<Hit>)
    requires l.Sane()
    ensures l.Run(None, hits).Some? <==> Creator(l, hits) >= 0
    ensures l.Run(None, hits).Some? ==>
              && l.Run(None, hits).value.count >= 1
              && (l.Run(None, hits).value.expires.None? <==> LosesExpire(hits[Creator(l, hits)].fault))
  {
    if hits != [] {
      EndlessIffExpireLost(l, hits[..|hits| - 1]);
    }
  }

  /** Such runs exist: one failed EXPIRE on a fresh key and the rest of the limit block it at
      every later time. */
  lemma ExpireCanBeLost(l: Limits, now: int, later: Hit)
    requires l.Sane() && later.fault.Fine?
    ensures l.Run(None, [Hit(now, ExpireNotApplied)]) == Some(Counter(1, now, None))
    ensures l.Answer(l.Run(None, [Hit(now, ExpireNotApplied)] + Burst(now, l.limit - 1)), later).Blocked?
  {
    var lost := [Hit(now, ExpireNotApplied)];
    assert lost[..0] == [];
    assert l.Run(None, lost) == Some(Counter(1, now, None));
    BurstAdds(l, lost, now, l.limit - 1, now, now + 1);
  }

  /** A key that nobody has touched for a whole window lets the next hit in, unless the hit that
      created its counter lost its EXPIRE and the limit has been used up since. */
  lemma RecoversIff(l: Limits, hits: seq<Hit>, later: Hit)
    requires l.Sane() && Timed(hits) && later.fault.Fine?
    requires hits != [] ==> later.now >= hits[|hits| - 1].now + l.Window()
    ensures l.Answer(l.Run(None, hits), later).Blocked? <==>
            && Creator(l, hits) >= 0 && LosesExpire(hits[Creator(l, hits)].fault)
            && l.Run(None, hits).Some? && l.Run(None, hits).value.count >= l.limit
  {
    EndlessIffExpireLost(l, hits);
    RunShape(l, hits);
  }

  /** And then it is blocked for good: whatever is tried, and whenever. */
  lemma LostExpireBlocksForGood(l: Limits, hits: seq<Hit>, more: seq<Hit>, later: Hit)
    requires l.Sane() && later.fault.Fine?
    requires Creator(l, hits) >= 0 && LosesExpire(hits[Creator(l, hits)].fault)
    requires l.Run(None, hits).Some? && l.Run(None, hits).value.count >= l.limit
    ensures l.Answer(l.Run(None, hits + more), later).Blocked?
  {
    EndlessIffExpireLost(l, hits);
    RunAppend(l, None, hits, more);
    StaysExhausted(l, l.Run(None, hits).value, more, later);
  }

  lemma {:induction false} RunAppend(l: Limits, c: Option<Counter>, a: seq<Hit>, b: seq<Hit>)
    ensures l.Run(c, a + b) == l.Run(l.Run(c, a), b)
  {
    if b == [] {
      assert a + b == a;
    } else {
      assert (a + b)[..|a + b| - 1] == a + b[..|b| - 1];
      RunAppend(l, c, a, b[..|b| - 1]);
    }
  }

  // --- The limiter ---------------------------------------------------------------------------

  type Key = string

  class Limiter {
    const limits: Limits
    const enabled: bool
    var store: map<Key, Counter>

    constructor (limits: Limits, enabled: bool)
      requires limits.Sane()
      ensures this.limits == limits && this.enabled == enabled && store == map[]
    {
      this.limits, this.enabled, store := limits, enabled, map[];
    }

    function Look(key: Key): Option<Counter>
      reads this
    {
      if key in store then Some(store[key]) else None
    }

    /** Records one hit. Other keys are untouched; with Redis off everything is allowed. */
    method Record(key: Key, h: Hit) returns (verdict: Verdict)
      modifies this`store
      ensures !enabled ==> verdict == Allowed && store == old(store)
      ensures enabled ==> verdict == limits.Answer(old(Look(key)), h) && Look(key) == limits.Step(old(Look(key)), h)
      ensures forall k | k != key :: Look(k) == old(Look(k))
    {
      if !enabled || h.fault.IncrNotApplied? {
        return Allowed;
      }
      var c := limits.Incremented(Look(key), h.now);
      store := store[key := c];
      if h.fault.IncrApplied? {
        return Allowed;
      }
      if c.count == 1 {
        if h.fault.ExpireNotApplied? {
          return Allowed;
        }
        store := store[key := c.(expires := Some(h.now + limits.Window()))];
        if h.fault.ExpireApplied? {
          return Allowed;
        }
      }
      if c.count > limits.limit {
        if h.fault.TtlFails? {
          return Allowed;
        }
        var ttl := limits.Ttl(c, h.now);
        return Blocked(if ttl > 1 then ttl else 1);
      }
      return Allowed;
    }
  }

  /** The hits of a mixed run that concern one key. */
  function Of(key: Key, calls: seq<(Key, Hit)>): seq<Hit> {
    if calls == [] then [] else
      Of(key, calls[..|calls| - 1]) + if calls[|calls| - 1].0 == key then [calls[|calls| - 1].1] else []
  }

  lemma NothingYet(limits: Limits, key: Key, calls: seq<(Key, Hit)>)
    ensures limits.Run(None, Of(key, calls[..0])) == None
  {
  }

  lemma RunOfNext(limits: Limits, key: Key, calls: seq<(Key, Hit)>, n: nat)
    requires n < |calls|
    ensures var before := limits.Run(None, Of(key, calls[..n]));
            limits.Run(None, Of(key, calls[..n + 1])) == if calls[n].0 == key then limits.Step(before, calls[n].1)
                else before
  {
    assert calls[..n + 1][..n] == calls[..n];
    var before := Of(key, calls[..n]);
    assert (before + [calls[n].1])[..|before|] == before;
    assert before + [] == before;
  }

  /** Any number of callers sharing one limiter: each key sees only its own hits. */
  method Serve(limits: Limits, calls: seq<(Key, Hit)>) returns (verdicts: seq<Verdict>, store: map<Key, Counter>)
    requires limits.Sane()
    ensures |verdicts| == |calls|
    ensures forall n | 0 <= n < |calls| ::
              verdicts[n] == limits.Answer(limits.Run(None, Of(calls[n].0, calls[..n])), calls[n].1)
    ensures forall k :: limits.Run(None, Of(k, calls)) == if k in store then Some(store[k]) else None
  {
    hide Limits.Run, Limits.Answer, Limits.Step, Of;
    forall k ensures limits.Run(None, Of(k, calls[..0])) == None {
      NothingYet(limits, k, calls);
    }
    var limiter := new Limiter(limits, true);
    verdicts := [];
    for n := 0 to |calls|
      invariant limiter.limits == limits && limiter.enabled && |verdicts| == n
      invariant forall m | 0 <= m < n ::
          verdicts[m] == limits.Answer(limits.Run(None, Of(calls[m].0, calls[..m])), calls[m].1)
      invariant forall k :: limits.Run(None, Of(k, calls[..n])) == limiter.Look(k)
    {
      var (key, h) := calls[n];
      var verdict := limiter.Record(key, h);
      verdicts := verdicts + [verdict];
      forall k ensures limits.Run(None, Of(k, calls[..n + 1])) == limiter.Look(k) {
        RunOfNext(limits, k, calls, n);
      }
    }
    assert calls[..|calls|] == calls;
    store := limiter.store;
  }
}
