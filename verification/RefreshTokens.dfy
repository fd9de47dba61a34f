/** Refresh-token rotation with reuse detection: login, refresh and logout over the token table.
    Each call is one atomic step. */
module RefreshTokens {
  import opened Wrappers

  type User = int

  type Jti = int

  datatype Row = Row(user: User, revoked: bool)

  /** A presented token: what its payload claims, and whether its time is up. */
  datatype Token = Token(sub: User, jti: Jti, expired: bool)

  datatype Error =
    | BadCredentials | InactiveUser | InvalidToken | ExpiredToken | UnknownToken | ReusedToken | JtiCollision

  datatype Outcome = Issued(jti: Jti) | Revoked | Denied(error: Error)

  /** `users` says who exists and is active; `rows` is the token table; `issued` records every
      signed token ever handed out; `origin` names the login each token descends from. */
  datatype State = State(users: map<User, bool>, rows: map<Jti, Row>, issued: map<Jti, User>, origin: map<Jti, Jti>) {

    predicate Active(u: User) { u in users && users[u] }

    /** Signatures cannot be forged: a token verifies when that payload was signed. */
    predicate Authentic(t: Token) { t.jti in issued && issued[t.jti] == t.sub }

    function Decoded(t: Token): (error: Option<Error>) {
      if !Authentic(t) then Some(InvalidToken) else if t.expired then Some(ExpiredToken) else None
    }

    function RevokeAll(u: User): map<Jti, Row> {
      map j | j in rows :: if rows[j].user == u then rows[j].(revoked := true) else rows[j]
    }

    function Add(u: User, jti: Jti, origin': Jti): State {
      State(users, rows[jti := Row(u, false)], issued[jti := u], origin[jti := origin'])
    }

    function Revoke(jti: Jti): State
      requires jti in rows
    {
      this.(rows := rows[jti := rows[jti].(revoked := true)])
    }
  }

  datatype Op =
    | Login(user: User, passwordOk: bool, jti: Jti)
    | Refresh(token: Token, jti: Jti)
    | Logout(token: Token)
    | SetActive(user: User, active: bool)
    | RemoveUser(user: User)

  function Outcome'(s: State, op: Op): Outcome {
    match op
    case Login(u, passwordOk, jti) =>
      if u !in s.users || !passwordOk then Denied(BadCredentials)
      else if !s.Active(u) then Denied(InactiveUser)
      else if jti in s.issued then Denied(JtiCollision)
      else Issued(jti)
    case Refresh(t, jti) =>
      if s.Decoded(t).Some? then Denied(s.Decoded(t).value)
      else if t.jti !in s.rows then Denied(UnknownToken)
      else if s.rows[t.jti].revoked then Denied(ReusedToken)
      else if !s.Active(t.sub) then Denied(InactiveUser)
      else if jti in s.issued then Denied(JtiCollision)
      else Issued(jti)
    case Logout(t) =>
      if s.Decoded(t) == Some(ExpiredToken) then Denied(ExpiredToken) else Revoked
    case SetActive(_, _) => Revoked
    case RemoveUser(_) => Revoked
  }

  /** The state after one step; `detect` is the reuse-detection setting. */
  function Step(detect: bool, s: State, op: Op): State {
    var outcome := Outcome'(s, op);
    match op
    case Login(u, _, jti) => if outcome.Issued? then s.Add(u, jti, jti) else s
    case Refresh(t, jti) =>
      if outcome.Issued? then s.Revoke(t.jti).Add(t.sub, jti, if t.jti in s.origin then s.origin[t.jti] else t.jti)
      else if outcome == Denied(ReusedToken) && detect then s.(rows := s.RevokeAll(s.rows[t.jti].user))
      else s
    case Logout(t) => if s.Decoded(t) == None && t.jti in s.rows then s.Revoke(t.jti) else s
    case SetActive(u, active) => if u in s.users then s.(users := s.users[u := active]) else s
    case RemoveUser(u) =>
      s.(users := s.users - {u}, rows := map j | j in s.rows && s.rows[j].user != u :: s.rows[j])
  }

  function Run(detect: bool, s: State, ops: seq<Op>): State {
    if ops == [] then s else Step(detect, Run(detect, s, ops[..|ops| - 1]), ops[|ops| - 1])
  }

  predicate Live(s: State, j: Jti) { j in s.rows && !s.rows[j].revoked }

  /** Every stored token was signed for its owner, and of the tokens descending from one login
      at most one is live. */
  ghost predicate Inv(s: State) {
    && (forall j | j in s.rows :: j in s.issued && s.issued[j] == s.rows[j].user && j in s.origin)
    && (forall j | j in s.origin :: j in s.issued && s.origin[j] in s.issued)
    && (forall j, k | Live(s, j) && Live(s, k) && s.origin[j] == s.origin[k] :: j == k)
  }

  lemma StepKeepsInv(detect: bool, s: State, op: Op)
    requires Inv(s)
    ensures Inv(Step(detect, s, op))
  {
    var t := Step(detect, s, op);
    forall j, k | Live(t, j) && Live(t, k) && t.origin[j] == t.origin[k] ensures j == k {
      if op.Refresh? && Outcome'(s, op).Issued? {
        assert Live(s, op.token.jti);
        assert j != op.jti ==> Live(s, j) && j != op.token.jti;
        assert k != op.jti ==> Live(s, k) && k != op.token.jti;
      } else if op.Login? && Outcome'(s, op).Issued? {
        assert j != op.jti ==> Live(s, j);
        assert k != op.jti ==> Live(s, k);
      } else {
        assert Live(s, j) && Live(s, k);
      }
    }
  }

  /** Over every run, each login's chain has at most one live token. */
  lemma {:induction false} RunKeepsInv(detect: bool, s: State, ops: seq<Op>)
    requires Inv(s)
    ensures Inv(Run(detect, s, ops))
  {
    if ops != [] {
      RunKeepsInv(detect, s, ops[..|ops| - 1]);
      StepKeepsInv(detect, Run(detect, s, ops[..|ops| - 1]), ops[|ops| - 1]);
    }
  }

  /** Signed tokens stay signed, and a token that is not live stays so. */
  lemma StepOnlyRevokes(detect: bool, s: State, op: Op, j: Jti)
    requires Inv(s) && j in s.issued
    ensures j in Step(detect, s, op).issued && Step(detect, s, op).issued[j] == s.issued[j]
    ensures !Live(s, j) ==> !Live(Step(detect, s, op), j)
  {
  }

  /** A revoked token never becomes live again, over any run. */
  lemma {:induction false} RevokedForever(detect: bool, s: State, ops: seq<Op>, j: Jti)
    requires Inv(s) && j in s.issued && !Live(s, j)
    ensures j in Run(detect, s, ops).issued && !Live(Run(detect, s, ops), j)
  {
    if ops != [] {
      var init := ops[..|ops| - 1];
      RevokedForever(detect, s, init, j);
      RunKeepsInv(detect, s, init);
      StepOnlyRevokes(detect, Run(detect, s, init), ops[|ops| - 1], j);
    }
  }

  lemma {:induction false} RunAppend(detect: bool, s: State, a: seq<Op>, b: seq<Op>)
    ensures Run(detect, s, a + b) == Run(detect, Run(detect, s, a), b)
  {
    if b == [] {
      assert a + b == a;
    } else {
      assert (a + b)[..|a + b| - 1] == a + b[..|b| - 1];
      RunAppend(detect, s, a, b[..|b| - 1]);
    }
  }

  /** Outcome of the n-th operation of a run. */
  function OutcomeAt(detect: bool, s: State, ops: seq<Op>, n: nat): Outcome
    requires n < |ops|
  {
    Outcome'(Run(detect, s, ops[..n]), ops[n])
  }

  /** A successful exchange consumes the token it was given. */
  lemma ExchangeConsumes(detect: bool, s: State, op: Op)
    requires Inv(s) && op.Refresh? && Outcome'(s, op).Issued?
    ensures Live(s, op.token.jti) && op.token.jti in s.issued
    ensures !Live(Step(detect, s, op), op.token.jti)
    ensures Live(Step(detect, s, op), op.jti)
  {
  }

  /** Each token is successfully exchanged at most once in any run. */
  lemma ExchangedAtMostOnce(detect: bool, s: State, ops: seq<Op>, i: nat, k: nat)
    requires Inv(s) && i < k < |ops| && ops[i].Refresh? && ops[k].Refresh?
    requires OutcomeAt(detect, s, ops, i).Issued? && OutcomeAt(detect, s, ops, k).Issued?
    ensures ops[i].token.jti != ops[k].token.jti
  {
    var j := ops[i].token.jti;
    var before := Run(detect, s, ops[..i]);
    RunKeepsInv(detect, s, ops[..i]);
    ExchangeConsumes(detect, before, ops[i]);
    StepKeepsInv(detect, before, ops[i]);
    StepOnlyRevokes(detect, before, ops[i], j);
    var middle := ops[i + 1..k];
    assert ops[..i + 1][..i] == ops[..i];
    assert ops[..k] == ops[..i + 1] + middle;
    RunAppend(detect, s, ops[..i + 1], middle);
    RevokedForever(detect, Step(detect, before, ops[i]), middle, j);
    RunKeepsInv(detect, s, ops[..k]);
    ExchangeConsumes(detect, Run(detect, s, ops[..k]), ops[k]);
  }

  /** The user holds no live token. */
  predicate LockedOut(s: State, u: User) {
    forall j | j in s.rows && s.rows[j].user == u :: s.rows[j].revoked
  }

  /** With detection on, presenting a revoked token revokes everything its owner holds. */
  lemma ReuseLocksOut(s: State, op: Op)
    requires Inv(s) && op.Refresh? && Outcome'(s, op) == Denied(ReusedToken)
    ensures LockedOut(Step(true, s, op), op.token.sub)
    ensures Step(false, s, op) == s
  {
  }

  lemma LockoutStep(detect: bool, s: State, op: Op, u: User)
    requires Inv(s) && LockedOut(s, u)
    requires op.Login? && op.user == u ==> !Outcome'(s, op).Issued?
    ensures LockedOut(Step(detect, s, op), u)
    ensures op.Refresh? && op.token.sub == u ==> !Outcome'(s, op).Issued?
  {
  }

  /** From then on every refresh for that user fails until a new login succeeds. */
  lemma {:induction false} LockoutLasts(detect: bool, s: State, ops: seq<Op>, u: User)
    requires Inv(s) && LockedOut(s, u)
    requires forall n | 0 <= n < |ops| && ops[n].Login? && ops[n].user == u :: !OutcomeAt(detect, s, ops, n).Issued?
    ensures LockedOut(Run(detect, s, ops), u)
    ensures forall n | 0 <= n < |ops| && ops[n].Refresh? && ops[n].token.sub == u ::
              !OutcomeAt(detect, s, ops, n).Issued?
  {
    hide Outcome', Step, Inv, LockedOut;
    if ops != [] {
      var m := |ops| - 1;
      var init := ops[..m];
      forall n | 0 <= n < m ensures OutcomeAt(detect, s, init, n) == OutcomeAt(detect, s, ops, n) {
        assert init[..n] == ops[..n];
      }
      LockoutLasts(detect, s, init, u);
      RunKeepsInv(detect, s, init);
      assert OutcomeAt(detect, s, ops, m) == Outcome'(Run(detect, s, init), ops[m]);
      LockoutStep(detect, Run(detect, s, init), ops[m], u);
    }
  }

  /** Without detection a thief who rotated first keeps going: the owner's reuse is refused but
      the thief's newer token stays live. */
  lemma WithoutDetectionTheChainLives()
    ensures exists s: State, op: Op, j: Jti ::
              Inv(s) && op.Refresh? && Outcome'(s, op) == Denied(ReusedToken)
              && Live(Step(false, s, op), j) && s.rows[j].user == op.token.sub
  {
    var s0 := State(map[1 := true], map[], map[], map[]);
    var login, rotate := Login(1, true, 10), Refresh(Token(1, 10, false), 11);
    var s1 := Step(false, s0, login);
    var s2 := Step(false, s1, rotate);
    StepKeepsInv(false, s0, login);
    StepKeepsInv(false, s1, rotate);
    var reuse := Refresh(Token(1, 10, false), 12);
    assert Outcome'(s2, reuse) == Denied(ReusedToken);
    assert Live(Step(false, s2, reuse), 11) && s2.rows[11].user == 1;
  }

  // --- What each call does, in plain terms -----------------------------------------------------

  /** Apart from the named tokens each is as live as before, and nobody's account changed. */
  predicate OthersUntouched(s: State, after: State, named: set<Jti>) {
    after.users == s.users && after.rows - named == s.rows - named
  }

  /** A login succeeds exactly for an active user with the right password, and gives out one live token;
      otherwise nothing changes. The password is judged before the account. */
  lemma LoginIff(detect: bool, s: State, u: User, passwordOk: bool, jti: Jti)
    requires jti !in s.issued
    ensures var after, outcome := Step(detect, s, Login(u, passwordOk, jti)), Outcome'(s, Login(u, passwordOk, jti));
            && (outcome == Issued(jti) <==> u in s.users && passwordOk && s.users[u])
            && (outcome == Denied(BadCredentials) <==> u !in s.users || !passwordOk)
            && (outcome == Denied(InactiveUser) <==> u in s.users && passwordOk && !s.users[u])
            && (outcome == Issued(jti) ==>
                  Live(after, jti) && after.rows[jti].user == u && after.issued == s.issued[jti := u]
                  && OthersUntouched(s, after, {jti}))
            && (outcome.Denied? ==> after == s)
  {
  }

  /** A refresh succeeds exactly with a genuine, unexpired, live token of an active user; the token is
      used up and a live one takes its place. Only the reuse of a revoked token changes anything else. */
  lemma RefreshIff(detect: bool, s: State, t: Token, jti: Jti)
    requires Inv(s) && jti !in s.issued
    ensures var after, outcome := Step(detect, s, Refresh(t, jti)), Outcome'(s, Refresh(t, jti));
            var genuine := t.jti in s.issued && s.issued[t.jti] == t.sub && !t.expired;
            && (outcome == Issued(jti) <==> genuine && Live(s, t.jti) && t.sub in s.users && s.users[t.sub])
            && (outcome == Denied(ReusedToken) <==> genuine && t.jti in s.rows && s.rows[t.jti].revoked)
            && (outcome == Denied(InvalidToken) <==> t.jti !in s.issued || s.issued[t.jti] != t.sub)
            && (outcome == Denied(ExpiredToken) <==> t.jti in s.issued && s.issued[t.jti] == t.sub && t.expired)
            && (outcome == Denied(UnknownToken) <==> genuine && t.jti !in s.rows)
            && (outcome == Issued(jti) ==>
                  && Live(after, jti) && after.rows[jti].user == t.sub && after.issued == s.issued[jti := t.sub]
                  && t.jti in after.rows && after.rows[t.jti] == Row(t.sub, true)
                  && OthersUntouched(s, after, {t.jti, jti}))
            && (outcome.Denied? && (outcome != Denied(ReusedToken) || !detect) ==> after == s)
  {
  }

  /** Reuse under detection revokes the tokens of the token's owner and of nobody else. */
  lemma ReuseSparesOthers(s: State, t: Token, jti: Jti, j: Jti)
    requires Inv(s) && Outcome'(s, Refresh(t, jti)) == Denied(ReusedToken) && j in s.rows
    ensures var after := Step(true, s, Refresh(t, jti));
            && after.rows.Keys == s.rows.Keys && after.users == s.users && after.issued == s.issued
            && after.rows[j] == Row(s.rows[j].user, s.rows[j].revoked || s.rows[j].user == t.sub)
  {
  }

  /** A logout with a genuine, unexpired token kills that token and no other, and over any later run the
      token is never exchanged. */
  lemma LogoutRevokes(detect: bool, s: State, t: Token, later: seq<Op>)
    requires Inv(s) && t.jti in s.issued && s.issued[t.jti] == t.sub && !t.expired
    ensures var after := Step(detect, s, Logout(t));
            && !Live(after, t.jti) && OthersUntouched(s, after, {t.jti})
            && after.rows.Keys == s.rows.Keys && after.issued == s.issued && Inv(after)
            && forall n | 0 <= n < |later| && later[n].Refresh? && later[n].token.jti == t.jti ::
                 !OutcomeAt(detect, after, later, n).Issued?
  {
    hide Run, Outcome';
    var after := Step(detect, s, Logout(t));
    StepKeepsInv(detect, s, Logout(t));
    forall n | 0 <= n < |later| && later[n].Refresh? && later[n].token.jti == t.jti
      ensures !OutcomeAt(detect, after, later, n).Issued?
    {
      RevokedForever(detect, after, later[..n], t.jti);
      RunKeepsInv(detect, after, later[..n]);
      if OutcomeAt(detect, after, later, n).Issued? {
        ExchangeConsumes(detect, Run(detect, after, later[..n]), later[n]);
      }
    }
  }

  /** A forged token is swallowed and an expired one reported; neither changes anything. */
  lemma LogoutChangesNothing(detect: bool, s: State, t: Token)
    ensures t.jti !in s.issued || s.issued[t.jti] != t.sub ==>
              Outcome'(s, Logout(t)) == Revoked && Step(detect, s, Logout(t)) == s
    ensures t.jti in s.issued && s.issued[t.jti] == t.sub && t.expired ==>
              Outcome'(s, Logout(t)) == Denied(ExpiredToken) && Step(detect, s, Logout(t)) == s
  {
  }

  /** Switching an account on or off touches no token; a removed user takes their tokens along. */
  lemma AccountChanges(detect: bool, s: State, u: User, active: bool)
    ensures var after := Step(detect, s, SetActive(u, active));
            after.rows == s.rows && after.users == if u in s.users then s.users[u := active] else s.users
    ensures var after := Step(detect, s, RemoveUser(u));
            && u !in after.users && (forall v | v != u :: v in after.users <==> v in s.users)
            && (forall v | v != u && v in s.users :: after.users[v] == s.users[v])
            && forall j :: j in after.rows <==> j in s.rows && s.rows[j].user != u
  {
  }

  // --- The service ---------------------------------------------------------------------------

  class AuthService {
    const detect: bool
    var users: map<User, bool>
    var rows: map<Jti, Row>
    ghost var issued: map<Jti, User>
    ghost var origin: map<Jti, Jti>

    constructor (detect: bool, users: map<User, bool>)
      ensures this.detect == detect && Abstract() == State(users, map[], map[], map[]) && Inv(Abstract())
    {
      this.detect, this.users := detect, users;
      rows, issued, origin := map[], map[], map[];
    }

    ghost function Abstract(): State
      reads this
    {
      State(users, rows, issued, origin)
    }

    method DoLogin(user: User, passwordOk: bool, jti: Jti) returns (outcome: Outcome)
      requires Inv(Abstract()) && jti !in issued
      modifies this
      ensures outcome == Outcome'(old(Abstract()), Login(user, passwordOk, jti))
      ensures Abstract() == Step(detect, old(Abstract()), Login(user, passwordOk, jti)) && Inv(Abstract())
    {
      StepKeepsInv(detect, Abstract(), Login(user, passwordOk, jti));
      if user !in users || !passwordOk {
        return Denied(BadCredentials);
      }
      if !users[user] {
        return Denied(InactiveUser);
      }
      rows := rows[jti := Row(user, false)];
      issued, origin := issued[jti := user], origin[jti := jti];
      return Issued(jti);
    }

    /** `decoded` is what signature checking makes of the token: none when it verifies. */
    method DoRefresh(t: Token, decoded: Option<Error>, jti: Jti) returns (outcome: Outcome)
      requires Inv(Abstract()) && jti !in issued && decoded == Abstract().Decoded(t)
      modifies this
      ensures outcome == Outcome'(old(Abstract()), Refresh(t, jti))
      ensures Abstract() == Step(detect, old(Abstract()), Refresh(t, jti)) && Inv(Abstract())
    {
      StepKeepsInv(detect, Abstract(), Refresh(t, jti));
      if decoded.Some? {
        return Denied(decoded.value);
      }
      if t.jti !in rows {
        return Denied(UnknownToken);
      }
      var row := rows[t.jti];
      if row.revoked {
        if detect {
          rows := map j | j in rows :: if rows[j].user == row.user then rows[j].(revoked := true) else rows[j];
        }
        return Denied(ReusedToken);
      }
      if t.sub !in users || !users[t.sub] {
        return Denied(InactiveUser);
      }
      rows := rows[t.jti := row.(revoked := true)];
      rows := rows[jti := Row(t.sub, false)];
      issued, origin := issued[jti := t.sub], origin[jti := origin[t.jti]];
      return Issued(jti);
    }

    /** Logging out swallows an invalid token but not an expired one. */
    method DoLogout(t: Token, decoded: Option<Error>) returns (outcome: Outcome)
      requires Inv(Abstract()) && decoded == Abstract().Decoded(t)
      modifies this
      ensures outcome == Outcome'(old(Abstract()), Logout(t))
      ensures Abstract() == Step(detect, old(Abstract()), Logout(t)) && Inv(Abstract())
    {
      StepKeepsInv(detect, Abstract(), Logout(t));
      if decoded == Some(InvalidToken) {
        return Revoked;
      }
      if decoded == Some(ExpiredToken) {
        return Denied(ExpiredToken);
      }
      if t.jti in rows && !rows[t.jti].revoked {
        rows := rows[t.jti := rows[t.jti].(revoked := true)];
      }
      return Revoked;
    }
  }
}
