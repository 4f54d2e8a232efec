/** The session table behind refresh tokens, and the statements the handlers run on it. */
module SessionTable {
  import opened Common
  import opened Jwt

  datatype Row = Row(user: string, token: Token, expiresAt: int, revokedAt: Option<int>)

  type Rows = map<string, Row>

  predicate Holds(r: Row, user: string, token: Token) { r.user == user && r.token == token }

  predicate Alive(r: Row, now: int) { r.revokedAt.None? && now <= r.expiresAt }

  /** Some row of the user holds the token, is not revoked and has not expired. */
  ghost predicate SessionValid(rows: Rows, user: string, token: Token, now: int) {
    exists id :: id in rows && Holds(rows[id], user, token) && Alive(rows[id], now)
  }

  ghost predicate TokensUnique(rows: Rows) {
    forall i, j :: i in rows && j in rows && i != j ==> rows[i].token != rows[j].token
  }

  function Rotated(rows: Rows, user: string, previous: Token, next: Token): Rows {
    map id | id in rows :: if Holds(rows[id], user, previous) then rows[id].(token := next) else rows[id]
  }

  function RevokedToken(rows: Rows, user: string, token: Token, now: int): Rows {
    map id | id in rows :: if Holds(rows[id], user, token) then rows[id].(revokedAt := Some(now)) else rows[id]
  }

  function RevokedAll(rows: Rows, user: string, now: int): Rows {
    map id | id in rows ::
      if rows[id].user == user && rows[id].revokedAt.None? then rows[id].(revokedAt := Some(now)) else rows[id]
  }

  function RevokedId(rows: Rows, user: string, session: string, now: int): Rows {
    map id | id in rows ::
      if id == session && rows[id].user == user && rows[id].revokedAt.None? then rows[id].(revokedAt := Some(now))
      else rows[id]
  }

  /** An UPDATE visits the rows one by one, in whatever order. */
  class LoginHandler {
    var rows: Rows

    constructor ()
      ensures rows == map[]
    {
      rows := map[];
    }

    /** The new row is good until its expiry, and nothing else changes. */
    method CreateSession(session: string, user: string, token: Token, now: int, duration: int)
      requires session !in rows
      modifies this
      ensures rows == old(rows)[session := Row(user, token, now + duration, None)]
      ensures forall u, k, t :: SessionValid(rows, u, k, t) <==>
        old(SessionValid(rows, u, k, t)) || (u == user && k == token && t <= now + duration)
    {
      rows := rows[session := Row(user, token, now + duration, None)];
      assert Holds(rows[session], user, token);
      forall u, k, t | old(SessionValid(rows, u, k, t))
        ensures SessionValid(rows, u, k, t)
      {
        var id :| id in old(rows) && Holds(old(rows)[id], u, k) && Alive(old(rows)[id], t);
        assert rows[id] == old(rows)[id];
      }
    }

    /** Reads one matching row, `chosen`; which one does not matter while tokens are unique. */
    method IsSessionValid(user: string, token: Token, now: int) returns (valid: bool, ghost chosen: Option<string>)
      ensures chosen.None? <==> forall id :: id in rows ==> !Holds(rows[id], user, token)
      ensures chosen.Some? ==> chosen.value in rows && Holds(rows[chosen.value], user, token)
      ensures valid <==> chosen.Some? && Alive(rows[chosen.value], now)
      ensures TokensUnique(rows) ==> (valid <==> SessionValid(rows, user, token, now))
    {
      chosen := None;
      var rest := rows.Keys;
      while rest != {}
        invariant rest <= rows.Keys && chosen == None
        invariant forall id :: id in rows && id !in rest ==> !Holds(rows[id], user, token)
      {
        var id :| id in rest;
        if Holds(rows[id], user, token) {
          chosen := Some(id);
          return rows[id].revokedAt.None? && !(now > rows[id].expiresAt), chosen;
        }
        rest := rest - {id};
      }
      return false, chosen;
    }

    /** If the new token is new, it takes over exactly what the old one was good for. */
    method UpdateSession(user: string, previous: Token, next: Token)
      modifies this
      ensures rows == Rotated(old(rows), user, previous, next)
      ensures previous != next && (forall id :: id in old(rows) ==> old(rows)[id].token != next) ==>
        forall t :: !SessionValid(rows, user, previous, t)
                 && (SessionValid(rows, user, next, t) <==> old(SessionValid(rows, user, previous, t)))
    {
      var rest := rows.Keys;
      while rest != {}
        invariant rest <= rows.Keys && rows.Keys == old(rows).Keys
        invariant forall id :: id in rows ==>
          rows[id] == if id !in rest && Holds(old(rows)[id], user, previous) then old(rows)[id].(token := next)
                      else old(rows)[id]
      {
        var id :| id in rest;
        if Holds(rows[id], user, previous) {
          rows := rows[id := rows[id].(token := next)];
        }
        rest := rest - {id};
      }
      TakesOver(old(rows), user, previous, next);
    }

    /** The token is good for this user no more, at any time; nobody else is touched. */
    method RevokeSession(user: string, token: Token, now: int)
      modifies this
      ensures rows == RevokedToken(old(rows), user, token, now)
      ensures forall t :: !SessionValid(rows, user, token, t)
      ensures forall u, k, t :: u != user || k != token ==>
        (SessionValid(rows, u, k, t) <==> old(SessionValid(rows, u, k, t)))
    {
      var rest := rows.Keys;
      while rest != {}
        invariant rest <= rows.Keys && rows.Keys == old(rows).Keys
        invariant forall id :: id in rows ==>
          rows[id] == if id !in rest && Holds(old(rows)[id], user, token) then old(rows)[id].(revokedAt := Some(now))
                      else old(rows)[id]
      {
        var id :| id in rest;
        if Holds(rows[id], user, token) {
          rows := rows[id := rows[id].(revokedAt := Some(now))];
        }
        rest := rest - {id};
      }
      OthersKeep(old(rows), rows, user, Some(token));
    }

    /** No token is good for this user any more, at any time; no other user is touched. */
    method RevokeAllSessions(user: string, now: int)
      modifies this
      ensures rows == RevokedAll(old(rows), user, now)
      ensures forall id :: id in old(rows) && old(rows)[id].revokedAt.Some? ==> id in rows && rows[id] == old(rows)[id]
      ensures forall k, t :: !SessionValid(rows, user, k, t)
      ensures forall u, k, t :: u != user ==> (SessionValid(rows, u, k, t) <==> old(SessionValid(rows, u, k, t)))
    {
      var rest := rows.Keys;
      while rest != {}
        invariant rest <= rows.Keys && rows.Keys == old(rows).Keys
        invariant forall id :: id in rows ==>
          rows[id] == if id !in rest && old(rows)[id].user == user && old(rows)[id].revokedAt.None?
                      then old(rows)[id].(revokedAt := Some(now)) else old(rows)[id]
      {
        var id :| id in rest;
        if rows[id].user == user && rows[id].revokedAt.None? {
          rows := rows[id := rows[id].(revokedAt := Some(now))];
        }
        rest := rest - {id};
      }
      OthersKeep(old(rows), rows, user, None);
    }

    /** The endpoint answers "not found" exactly when it changed nothing. */
    method RevokeSessionById(user: string, session: string, now: int) returns (found: bool)
      modifies this
      ensures rows == RevokedId(old(rows), user, session, now)
      ensures found <==> rows != old(rows)
      ensures found <==>
        session in old(rows) && old(rows)[session].user == user && old(rows)[session].revokedAt.None?
      ensures rows.Keys == old(rows).Keys
      ensures forall id :: id in rows && (id != session || !found) ==> rows[id] == old(rows)[id]
      ensures found ==> rows[session] == old(rows)[session].(revokedAt := Some(now))
      ensures found ==> forall t :: !Alive(rows[session], t)
    {
      found := session in rows && rows[session].user == user && rows[session].revokedAt.None?;
      if found {
        rows := rows[session := rows[session].(revokedAt := Some(now))];
      }
    }
  }

  lemma TakesOver(rows: Rows, user: string, previous: Token, next: Token)
    ensures var after := Rotated(rows, user, previous, next);
      previous != next && (forall id :: id in rows ==> rows[id].token != next) ==>
        forall t :: !SessionValid(after, user, previous, t)
                 && (SessionValid(after, user, next, t) <==> SessionValid(rows, user, previous, t))
  {
    var after := Rotated(rows, user, previous, next);
    if previous != next && forall id :: id in rows ==> rows[id].token != next {
      forall t | SessionValid(rows, user, previous, t)
        ensures SessionValid(after, user, next, t)
      {
        var id :| id in rows && Holds(rows[id], user, previous) && Alive(rows[id], t);
        assert Holds(after[id], user, next) && Alive(after[id], t);
      }
    }
  }

  /** If only rows of one user (and token, if one is given) have changed, the others are as good as before. */
  lemma OthersKeep(before: Rows, after: Rows, user: string, token: Option<Token>)
    requires after.Keys == before.Keys
    requires forall id :: id in before ==>
      before[id].user != user || (token.Some? && before[id].token != token.value) ==> after[id] == before[id]
    requires forall id :: id in before ==> after[id].user == before[id].user && after[id].token == before[id].token
    ensures forall u, k, t :: u != user || (token.Some? && k != token.value) ==>
      (SessionValid(after, u, k, t) <==> SessionValid(before, u, k, t))
  {
    forall u, k, t | (u != user || (token.Some? && k != token.value)) && SessionValid(before, u, k, t)
      ensures SessionValid(after, u, k, t)
    {
      var id :| id in before && Holds(before[id], u, k) && Alive(before[id], t);
      assert after[id] == before[id];
    }
  }
}

/**
 Refreshes, logouts and revocations in any interleaving. A refresh is three steps: check
 the presented token, generate a pair, write the new refresh token over the old one.
 Token ids are fresh; `born`, `installed`, `retired` and `answers` only record what happened.
 */
module Rotation {
  import opened Common
  import opened Jwt
  import opened SessionTable

  type SignedToken = t: Token | t.Signed?
    witness Signed(Claims("", "", [], "", true, 0, 0), true, "")

  datatype Phase = Checked(presented: SignedToken) | Generated(presented: SignedToken, issued: SignedToken)

  datatype State = State(
    clock: int,
    rows: Rows,
    running: map<nat, Phase>,        // refreshes under way, by request
    ids: set<string>,                // token ids ever drawn
    born: map<Token, Token>,         // new refresh token -> the one presented for it
    installed: set<Token>,           // tokens ever written into a row
    retired: set<Token>,             // tokens ever overwritten
    answers: set<Token>)             // tokens a refresh has answered with

  datatype Event =
    | Login(wait: nat, session: string, user: string, email: string, roles: seq<string>, tokenId: string, duration: int)
    | Check(wait: nat, request: nat, token: Token, active: bool)
    | Generate(wait: nat, request: nat, tokenId: string)
    | Update(wait: nat, request: nat)
    | Logout(wait: nat, user: string, token: Token)
    | LogoutAll(wait: nat, user: string)
    | Revoke(wait: nat, user: string, session: string)

  const Start := State(0, map[], map[], {}, map[], {}, {}, {})

  function Without<T>(m: map<nat, T>, k: nat): map<nat, T> { map i | i in m && i != k :: m[i] }

  // A step whose guard fails changes nothing.

  function AfterLogin(s: State, session: string, token: SignedToken, duration: int): State {
    if session in s.rows || token.claims.tokenId in s.ids then s
    else
      s.(rows := s.rows[session := Row(token.claims.user, token, s.clock + duration, None)],
         ids := s.ids + {token.claims.tokenId}, installed := s.installed + {token})
  }

  ghost function AfterCheck(m: Manager, s: State, r: nat, token: Token, active: bool): State {
    if r in s.running || !Acceptable(m, s, token) || !active then s
    else s.(running := s.running[r := Checked(token)])
  }

  function AfterGenerate(m: Manager, s: State, r: nat, tokenId: string): State {
    if r !in s.running || !s.running[r].Checked? || tokenId in s.ids then s
    else
      var pair := RefreshTokens(m, s.running[r].presented, tokenId, s.clock);
      if pair.Err? then s.(running := Without(s.running, r)) else WithGenerated(s, r, pair.value.refresh)
  }

  function WithGenerated(s: State, r: nat, token: SignedToken): State
    requires r in s.running
  {
    s.(running := s.running[r := Generated(s.running[r].presented, token)],
       ids := s.ids + {token.claims.tokenId}, born := s.born[token := s.running[r].presented])
  }

  /** The handler answers with the new token, whether or not its UPDATE matched a row. */
  function AfterUpdate(s: State, r: nat): State {
    if r !in s.running || !s.running[r].Generated? then s
    else
      var p := s.running[r];
      var rows := Rotated(s.rows, p.presented.claims.user, p.presented, p.issued);
      var t := s.(running := Without(s.running, r), answers := s.answers + {p.issued});
      if rows == s.rows then t
      else t.(rows := rows, installed := s.installed + {p.issued}, retired := s.retired + {p.presented})
  }

  function Waited(s: State, wait: nat): State { s.(clock := s.clock + wait) }

  ghost function Step(m: Manager, s: State, e: Event): State { Act(m, Waited(s, e.wait), e) }

  ghost function Act(m: Manager, s: State, e: Event): State {
    match e
    case Login(_, session, user, email, roles, tokenId, duration) =>
      AfterLogin(s, session, GenerateTokenPair(m, user, email, roles, tokenId, s.clock).refresh, duration)
    case Check(_, r, token, active) => AfterCheck(m, s, r, token, active)
    case Generate(_, r, tokenId) => AfterGenerate(m, s, r, tokenId)
    case Update(_, r) => AfterUpdate(s, r)
    case Logout(_, user, token) => s.(rows := RevokedToken(s.rows, user, token, s.clock))
    case LogoutAll(_, user) => s.(rows := RevokedAll(s.rows, user, s.clock))
    case Revoke(_, user, session) => s.(rows := RevokedId(s.rows, user, session, s.clock))
  }

  ghost function RunFrom(m: Manager, s: State, events: seq<Event>): State {
    if events == [] then s else Step(m, RunFrom(m, s, events[..|events| - 1]), events[|events| - 1])
  }

  /** What the refresh endpoint would accept at this instant. */
  ghost predicate Acceptable(m: Manager, s: State, token: Token) {
    && ValidateRefreshToken(m, token, s.clock).Ok?
    && SessionValid(s.rows, token.claims.user, token, s.clock)
  }

  // ----- The invariant -----

  ghost predicate RowsSound(s: State) {
    && TokensUnique(s.rows)
    && (forall id :: id in s.rows ==>
          s.rows[id].token in s.installed && s.rows[id].token !in s.retired && s.rows[id].token.Signed?
          && s.rows[id].user == s.rows[id].token.claims.user)
  }

  ghost predicate TokensSound(s: State) {
    && s.retired <= s.installed
    && (forall t :: t in s.installed || t in s.born ==> t.Signed? && t.claims.tokenId in s.ids)
    && (forall t :: t in s.installed && t in s.born ==> s.born[t] in s.retired)
    && (forall t, u :: t in s.installed && u in s.installed && t in s.born && u in s.born ==>
          s.born[t] == s.born[u] ==> t == u)
  }

  ghost predicate RunningSound(s: State) {
    && (forall r :: r in s.running ==> s.running[r].presented.Signed? && s.running[r].presented in s.installed)
    && (forall r :: r in s.running && s.running[r].Generated? ==>
          var p := s.running[r];
          p.issued in s.born && s.born[p.issued] == p.presented && p.issued !in s.installed
          && p.issued.Signed? && p.issued.claims.user == p.presented.claims.user)
    && (forall q, r :: q in s.running && r in s.running && q != r && s.running[q].Generated? && s.running[r].Generated?
          ==> s.running[q].issued != s.running[r].issued)
  }

  ghost predicate Sound(s: State) { RowsSound(s) && TokensSound(s) && RunningSound(s) }

  lemma UpdateIsSound(s: State, r: nat)
    requires Sound(s)
    ensures Sound(AfterUpdate(s, r))
  {
    if r in s.running && s.running[r].Generated? {
      var p := s.running[r];
      var rows := Rotated(s.rows, p.presented.claims.user, p.presented, p.issued);
      if rows != s.rows {
        var id :| id in s.rows && rows[id] != s.rows[id];
        assert s.rows[id].token == p.presented && p.presented !in s.retired;
        RotatedRows(s, p, rows);
        RotatedTokens(s, p);
        RotatedRunning(s, r);
      } else {
        DroppedRunning(s, r);
      }
    }
  }

  lemma RotatedRows(s: State, p: Phase, rows: Rows)
    requires RowsSound(s) && p.Generated? && p.issued !in s.installed && p.issued !in s.retired
    requires p.issued.claims.user == p.presented.claims.user && p.presented != p.issued
    requires rows == Rotated(s.rows, p.presented.claims.user, p.presented, p.issued)
    ensures RowsSound(s.(rows := rows, installed := s.installed + {p.issued}, retired := s.retired + {p.presented}))
  {
  }

  lemma RotatedTokens(s: State, p: Phase)
    requires TokensSound(s) && p.Generated? && p.presented in s.installed && p.presented !in s.retired
    requires p.issued in s.born && s.born[p.issued] == p.presented
    ensures TokensSound(s.(installed := s.installed + {p.issued}, retired := s.retired + {p.presented}))
  {
  }

  lemma RotatedRunning(s: State, r: nat)
    requires RunningSound(s) && r in s.running && s.running[r].Generated?
    ensures RunningSound(s.(running := Without(s.running, r), installed := s.installed + {s.running[r].issued}))
  {
  }

  lemma DroppedRunning(s: State, r: nat)
    requires RunningSound(s)
    ensures RunningSound(s.(running := Without(s.running, r)))
  {
  }

  lemma LoginIsSound(s: State, session: string, token: SignedToken, duration: int)
    requires Sound(s)
    ensures Sound(AfterLogin(s, session, token, duration))
  {
    if session !in s.rows && token.claims.tokenId !in s.ids {
      var t := AfterLogin(s, session, token, duration);
      assert token !in s.installed && token !in s.born && token !in s.retired;
      assert RowsSound(t);
      assert TokensSound(t);
      assert RunningSound(t) by {
        assert forall r :: r in s.running && s.running[r].Generated? ==> s.running[r].issued in s.born;
      }
    }
  }

  lemma CheckIsSound(m: Manager, s: State, r: nat, token: Token, active: bool)
    requires Sound(s)
    ensures Sound(AfterCheck(m, s, r, token, active))
  {
    if Acceptable(m, s, token) {
      assert token in s.installed;
    }
  }

  lemma GenerateIsSound(m: Manager, s: State, r: nat, tokenId: string)
    requires Sound(s)
    ensures Sound(AfterGenerate(m, s, r, tokenId))
  {
    if r in s.running && s.running[r].Checked? && tokenId !in s.ids {
      var pair := RefreshTokens(m, s.running[r].presented, tokenId, s.clock);
      if pair.Ok? {
        GeneratedIsSound(s, r, pair.value.refresh);
      } else {
        DroppedRunning(s, r);
      }
    }
  }

  /** A freshly generated token is known to nobody yet. */
  lemma GeneratedIsSound(s: State, r: nat, token: SignedToken)
    requires Sound(s) && r in s.running && token.claims.tokenId !in s.ids
    requires token.claims.user == s.running[r].presented.claims.user
    ensures Sound(WithGenerated(s, r, token))
  {
    var t := WithGenerated(s, r, token);
    assert token !in s.installed && token !in s.born;
    assert RowsSound(t);
    assert TokensSound(t);
    assert RunningSound(t) by {
      assert forall q :: q in s.running && s.running[q].Generated? ==> s.running[q].issued in s.born;
    }
  }

  /** Nothing but revocations happened to the rows. */
  ghost predicate OnlyRevoked(rows: Rows, rows': Rows) {
    && rows'.Keys == rows.Keys
    && forall id :: id in rows ==>
         && rows'[id].user == rows[id].user && rows'[id].token == rows[id].token
         && rows'[id].expiresAt == rows[id].expiresAt
         && (rows[id].revokedAt.Some? ==> rows'[id].revokedAt.Some?)
  }

  lemma RevocationsOnlyRevoke(rows: Rows, user: string, token: Token, session: string, now: int)
    ensures OnlyRevoked(rows, RevokedToken(rows, user, token, now))
    ensures OnlyRevoked(rows, RevokedAll(rows, user, now))
    ensures OnlyRevoked(rows, RevokedId(rows, user, session, now))
  {
  }

  lemma RevocationIsSound(s: State, rows: Rows)
    requires Sound(s) && OnlyRevoked(s.rows, rows)
    ensures Sound(s.(rows := rows))
  {
  }

  lemma WaitingIsSound(s: State, wait: nat)
    requires Sound(s)
    ensures Sound(Waited(s, wait))
  {
  }

  lemma RefreshStepIsSound(m: Manager, s: State, e: Event)
    requires Sound(s) && (e.Check? || e.Generate? || e.Update?)
    ensures Sound(Act(m, s, e))
  {
    match e
    case Check(_, r, token, active) => CheckIsSound(m, s, r, token, active);
    case Generate(_, r, tokenId) => GenerateIsSound(m, s, r, tokenId);
    case Update(_, r) => UpdateIsSound(s, r);
  }

  lemma OtherStepIsSound(m: Manager, s: State, e: Event)
    requires Sound(s) && !(e.Check? || e.Generate? || e.Update?)
    ensures Sound(Act(m, s, e))
  {
    match e
    case Login(_, session, user, email, roles, tokenId, duration) =>
      LoginIsSound(s, session, GenerateTokenPair(m, user, email, roles, tokenId, s.clock).refresh, duration);
    case Logout(_, user, token) =>
      RevocationsOnlyRevoke(s.rows, user, token, "", s.clock);
      RevocationIsSound(s, RevokedToken(s.rows, user, token, s.clock));
    case LogoutAll(_, user) =>
      RevocationsOnlyRevoke(s.rows, user, Garbled, "", s.clock);
      RevocationIsSound(s, RevokedAll(s.rows, user, s.clock));
    case Revoke(_, user, session) =>
      RevocationsOnlyRevoke(s.rows, user, Garbled, session, s.clock);
      RevocationIsSound(s, RevokedId(s.rows, user, session, s.clock));
  }

  lemma {:induction false} RunIsSound(m: Manager, s: State, events: seq<Event>)
    requires Sound(s)
    ensures Sound(RunFrom(m, s, events))
  {
    if events != [] {
      RunIsSound(m, s, events[..|events| - 1]);
      var t, e := RunFrom(m, s, events[..|events| - 1]), events[|events| - 1];
      WaitingIsSound(t, e.wait);
      if e.Check? || e.Generate? || e.Update? {
        RefreshStepIsSound(m, Waited(t, e.wait), e);
      } else {
        OtherStepIsSound(m, Waited(t, e.wait), e);
      }
    }
  }

  // ----- What never changes back -----

  /** Later states keep every session with its user and expiry, every revocation, and the history. */
  ghost predicate Extends(s: State, t: State) {
    && s.clock <= t.clock
    && (forall id :: id in s.rows ==>
          && id in t.rows && t.rows[id].user == s.rows[id].user && t.rows[id].expiresAt == s.rows[id].expiresAt
          && (s.rows[id].revokedAt.Some? ==> t.rows[id].revokedAt.Some?))
    && s.retired <= t.retired && s.installed <= t.installed && s.ids <= t.ids
    && (forall k :: k in s.born ==> k in t.born && t.born[k] == s.born[k])
  }

  lemma StepExtends(m: Manager, s: State, e: Event)
    requires TokensSound(s)
    ensures Extends(s, Step(m, s, e))
  {
    var u := Waited(s, e.wait);
    match e
    case Generate(_, r, tokenId) => GenerateExtends(m, u, r, tokenId);
    case Update(_, r) => UpdateExtends(u, r);
    case Logout(_, user, token) => RevocationsOnlyRevoke(s.rows, user, token, "", u.clock);
    case LogoutAll(_, user) => RevocationsOnlyRevoke(s.rows, user, Garbled, "", u.clock);
    case Revoke(_, user, session) => RevocationsOnlyRevoke(s.rows, user, Garbled, session, u.clock);
    case _ =>
  }

  lemma GenerateExtends(m: Manager, s: State, r: nat, tokenId: string)
    requires TokensSound(s)
    ensures Extends(s, AfterGenerate(m, s, r, tokenId))
  {
    assert forall k :: k in s.born ==> k.Signed? && k.claims.tokenId in s.ids;
  }

  lemma UpdateExtends(s: State, r: nat)
    ensures Extends(s, AfterUpdate(s, r))
  {
  }

  lemma {:induction false} RunExtends(m: Manager, s: State, events: seq<Event>)
    requires Sound(s)
    ensures Extends(s, RunFrom(m, s, events))
  {
    if events != [] {
      var before := events[..|events| - 1];
      RunExtends(m, s, before);
      RunIsSound(m, s, before);
      StepExtends(m, RunFrom(m, s, before), events[|events| - 1]);
    }
  }

  /** Acceptable tokens of one session are one token, and one token serves one session. */
  lemma OneTokenPerSession(m: Manager, events: seq<Event>, t: Token, u: Token)
    requires var s := RunFrom(m, Start, events); Acceptable(m, s, t) && Acceptable(m, s, u)
    ensures var s := RunFrom(m, Start, events);
      forall i, j :: i in s.rows && j in s.rows && s.rows[i].token == t && s.rows[j].token == u ==> (i == j <==> t == u)
  {
    RunIsSound(m, Start, events);
  }

  /** A rotated-away token is never accepted again. */
  lemma RetiredStaysDead(m: Manager, events: seq<Event>, more: seq<Event>, token: Token)
    requires token in RunFrom(m, Start, events).retired
    ensures !Acceptable(m, RunFrom(m, RunFrom(m, Start, events), more), token)
  {
    var s := RunFrom(m, Start, events);
    RunIsSound(m, Start, events);
    RunIsSound(m, s, more);
    RunExtends(m, s, more);
  }

  /** Whatever token a session holds, nothing is accepted for it after it was revoked or past
      the expiry fixed at login. */
  lemma DeadSessionStaysDead(m: Manager, events: seq<Event>, more: seq<Event>, session: string, token: Token)
    requires session in RunFrom(m, Start, events).rows
    requires var s, t := RunFrom(m, Start, events), RunFrom(m, RunFrom(m, Start, events), more);
      s.rows[session].revokedAt.Some? || s.rows[session].expiresAt < t.clock
    ensures var t := RunFrom(m, RunFrom(m, Start, events), more);
      session in t.rows && (t.rows[session].token == token ==> !Acceptable(m, t, token))
  {
    var s := RunFrom(m, Start, events);
    RunIsSound(m, Start, events);
    RunIsSound(m, s, more);
    RunExtends(m, s, more);
  }

  /** Of all the tokens ever generated from one presented token, at most one is ever accepted. */
  lemma OneSuccessor(m: Manager, events: seq<Event>, more: seq<Event>, t: Token, u: Token)
    requires var s1, s2 := RunFrom(m, Start, events), RunFrom(m, RunFrom(m, Start, events), more);
      && t in s2.born && u in s2.born && s2.born[t] == s2.born[u]
      && Acceptable(m, s1, t) && Acceptable(m, s2, u)
    ensures t == u
  {
    var s := RunFrom(m, Start, events);
    RunIsSound(m, Start, events);
    RunIsSound(m, s, more);
    RunExtends(m, s, more);
  }

  /** The endpoint answers with the new token in any case. That token is good exactly if the session
      still held the presented one and was alive. */
  lemma AnswerIsGood(m: Manager, events: seq<Event>, e: Event)
    requires var s := RunFrom(m, Start, events);
      e.Update? && e.request in s.running && s.running[e.request].Generated?
    ensures var s, t := RunFrom(m, Start, events), Step(m, RunFrom(m, Start, events), e);
      var p := s.running[e.request];
      p.issued in t.answers && (Acceptable(m, t, p.issued) <==>
        && ValidateRefreshToken(m, p.issued, t.clock).Ok?
        && SessionValid(s.rows, p.presented.claims.user, p.presented, t.clock))
  {
    RunIsSound(m, Start, events);
    var s := RunFrom(m, Start, events);
    var t := Step(m, s, e);
    var p := s.running[e.request];
    var user := p.presented.claims.user;
    var rows := Rotated(s.rows, user, p.presented, p.issued);
    if SessionValid(s.rows, user, p.presented, t.clock) {
      var id :| id in s.rows && Holds(s.rows[id], user, p.presented) && Alive(s.rows[id], t.clock);
      assert rows[id].token == p.issued && rows != s.rows;
      assert Holds(t.rows[id], user, p.issued);
    }
    if SessionValid(t.rows, user, p.issued, t.clock) {
      var id :| id in t.rows && Holds(t.rows[id], user, p.issued) && Alive(t.rows[id], t.clock);
      assert Holds(s.rows[id], user, p.presented);
    }
  }

  // ----- What a login and a check come to -----

  /** A login with a session id and a token id of its own, in any run: d later its refresh token is
      accepted exactly if the session has not expired and the whole second in which the token expires has
      not begun. */
  lemma LoginEffect(m: Manager, events: seq<Event>, s: State, e: Event, d: nat)
    requires s == RunFrom(m, Start, events) && e.Login? && e.session !in s.rows && e.tokenId !in s.ids
    ensures var t := Step(m, s, e);
      var token := GenerateTokenPair(m, e.user, e.email, e.roles, e.tokenId, t.clock).refresh;
      Acceptable(m, Waited(t, d), token) <==>
        d <= e.duration && (t.clock + d) / 1_000_000_000 < (t.clock + m.refreshTTL) / 1_000_000_000
  {
    RunIsSound(m, Start, events);
    WaitingIsSound(s, e.wait);
    LoginLives(m, Waited(s, e.wait), e, d);
  }

  lemma LoginLives(m: Manager, s: State, e: Event, d: nat)
    requires RowsSound(s) && TokensSound(s) && e.Login? && e.session !in s.rows && e.tokenId !in s.ids
    ensures var token := GenerateTokenPair(m, e.user, e.email, e.roles, e.tokenId, s.clock).refresh;
      Acceptable(m, Waited(Act(m, s, e), d), token) <==>
        d <= e.duration && (s.clock + d) / 1_000_000_000 < (s.clock + m.refreshTTL) / 1_000_000_000
  {
    var token := GenerateTokenPair(m, e.user, e.email, e.roles, e.tokenId, s.clock).refresh;
    IssuedPairWindow(m, e.user, e.email, e.roles, e.tokenId, s.clock, s.clock + d);
    PairSpeaksFor(m, e.user, e.email, e.roles, e.tokenId, s.clock);
    RowLives(s, e.session, token, e.duration, d);
  }

  lemma RowLives(s: State, session: string, token: SignedToken, duration: int, d: nat)
    requires RowsSound(s) && TokensSound(s) && session !in s.rows && token.claims.tokenId !in s.ids
    ensures SessionValid(AfterLogin(s, session, token, duration).rows, token.claims.user, token, s.clock + d)
       <==> d <= duration
  {
    var rows := AfterLogin(s, session, token, duration).rows;
    assert Holds(rows[session], token.claims.user, token);
    assert token !in s.installed;
    assert forall id :: id in rows && id != session ==> rows[id] == s.rows[id] && rows[id].token != token;
  }

  /** A refresh gets past its check exactly if the account is active, the token is a good refresh token,
      and some row of its user holds it that is neither revoked nor expired. A check writes nothing. */
  lemma CheckEffect(m: Manager, s: State, wait: nat, r: nat, token: Token, active: bool)
    requires r !in s.running
    ensures var t, now := Step(m, s, Check(wait, r, token, active)), s.clock + wait;
      && t.rows == s.rows && t.answers == s.answers
      && (r in t.running <==>
            && active && ValidateRefreshToken(m, token, now).Ok? && token.Signed?
            && exists id :: id in s.rows && s.rows[id].token == token && s.rows[id].user == token.claims.user
                         && s.rows[id].revokedAt.None? && now <= s.rows[id].expiresAt)
  {
    var u := Waited(s, wait);
    if token.Signed? && SessionValid(u.rows, token.claims.user, token, u.clock) {
      var id :| id in s.rows && Holds(s.rows[id], token.claims.user, token) && Alive(s.rows[id], u.clock);
      assert s.rows[id].token == token && s.rows[id].user == token.claims.user;
    }
    if token.Signed? {
      assert forall id :: id in s.rows && s.rows[id].token == token && s.rows[id].user == token.claims.user ==>
        Holds(u.rows[id], token.claims.user, token);
    }
  }

  // ----- Answers that are worth nothing -----

  /** Generated, but neither in the table nor about to be written into it. */
  ghost predicate Stillborn(s: State, token: Token) {
    && token in s.born && token !in s.installed
    && forall r :: r in s.running && s.running[r].Generated? ==> s.running[r].issued != token
  }

  lemma StepKeepsStillborn(m: Manager, s: State, e: Event, token: Token)
    requires Sound(s) && Stillborn(s, token)
    ensures Stillborn(Step(m, s, e), token)
  {
  }

  lemma {:induction false} StillbornForEver(m: Manager, s: State, events: seq<Event>, token: Token)
    requires Sound(s) && Stillborn(s, token)
    ensures !Acceptable(m, RunFrom(m, s, events), token) && Stillborn(RunFrom(m, s, events), token)
  {
    RunIsSound(m, s, events);
    if events != [] {
      StillbornForEver(m, s, events[..|events| - 1], token);
      RunIsSound(m, s, events[..|events| - 1]);
      StepKeepsStillborn(m, RunFrom(m, s, events[..|events| - 1]), events[|events| - 1], token);
    }
  }

  /** No session holds the token that this refresh presented any more. */
  predicate Unmatched(s: State, r: nat)
    requires r in s.running
  {
    forall id :: id in s.rows ==> !Holds(s.rows[id], s.running[r].presented.claims.user, s.running[r].presented)
  }

  /** A refresh whose UPDATE matches no row answers with a token that is never accepted, in any run. */
  lemma UnmatchedAnswerIsWorthless(m: Manager, events: seq<Event>, e: Event, more: seq<Event>)
    requires var s := RunFrom(m, Start, events);
      e.Update? && e.request in s.running && s.running[e.request].Generated? && Unmatched(s, e.request)
    ensures var s, t := RunFrom(m, Start, events), Step(m, RunFrom(m, Start, events), e);
      var token := s.running[e.request].issued;
      token in t.answers && t.rows == s.rows && !Acceptable(m, RunFrom(m, t, more), token)
  {
    RunIsSound(m, Start, events);
    var s, t := RunFrom(m, Start, events), Step(m, RunFrom(m, Start, events), e);
    var p := s.running[e.request];
    assert Rotated(s.rows, p.presented.claims.user, p.presented, p.issued) == s.rows;
    StepIsSound(m, s, e);
    StillbornForEver(m, t, more, p.issued);
  }

  lemma StepIsSound(m: Manager, s: State, e: Event)
    requires Sound(s)
    ensures Sound(Step(m, s, e))
  {
    WaitingIsSound(s, e.wait);
    if e.Check? || e.Generate? || e.Update? {
      RefreshStepIsSound(m, Waited(s, e.wait), e);
    } else {
      OtherStepIsSound(m, Waited(s, e.wait), e);
    }
  }

  // ----- Two refreshes of one token -----

  /** Requests q and r have both generated a token for the one presented. */
  ghost predicate Racing(s: State, q: nat, r: nat, token: Token) {
    && q != r && q in s.running && r in s.running
    && s.running[q].Generated? && s.running[r].Generated?
    && s.running[q].presented == token && s.running[r].presented == token
  }

  /** Whichever updates second finds no row: its caller is answered with a worthless token. */
  lemma SecondRefreshFindsNoRow(m: Manager, events: seq<Event>, q: nat, r: nat, token: Token)
    requires Racing(RunFrom(m, Start, events), q, r, token)
    ensures var s := RunFrom(m, Start, events + [Update(0, q)]);
      r in s.running && s.running[r].Generated? && Unmatched(s, r)
  {
    RunIsSound(m, Start, events);
    assert (events + [Update(0, q)])[..|events|] == events;
    var s := RunFrom(m, Start, events);
    UpdateClearsToken(s, q, r, token);
    assert Waited(s, 0) == s;
  }

  lemma UpdateClearsToken(s: State, q: nat, r: nat, token: Token)
    requires Sound(s) && Racing(s, q, r, token)
    ensures var t := AfterUpdate(s, q);
      r in t.running && t.running[r].Generated? && Unmatched(t, r)
  {
    var p := s.running[q];
    assert p.issued !in s.installed && token in s.installed;
    RotatedAway(s.rows, token.claims.user, token, p.issued);
    assert AfterUpdate(s, q).rows == Rotated(s.rows, token.claims.user, token, p.issued);
  }

  lemma RotatedAway(rows: Rows, user: string, previous: Token, next: Token)
    requires previous != next
    ensures var after := Rotated(rows, user, previous, next);
      forall id :: id in after ==> !Holds(after[id], user, previous)
  {
  }

  /** Any two idle requests can get there with a token that is accepted: check, check, generate,
      generate. */
  lemma BothGenerate(m: Manager, s: State, q: nat, r: nat, token: Token, i: string, j: string)
    requires Sound(s) && Acceptable(m, s, token)
    requires q != r && q !in s.running && r !in s.running && i != j && i !in s.ids && j !in s.ids
    ensures var t := Step(m, Step(m, Step(m, Step(m, s, Check(0, q, token, true)), Check(0, r, token, true)),
                                  Generate(0, q, i)), Generate(0, r, j));
      Racing(t, q, r, token)
  {
    var s1 := Step(m, s, Check(0, q, token, true));
    assert s1 == s.(running := s.running[q := Checked(token)]);
    var s2 := Step(m, s1, Check(0, r, token, true));
    assert s2 == s.(running := s.running[q := Checked(token)][r := Checked(token)]);
    OneGenerates(m, s2, q, i);
    var s3 := Step(m, s2, Generate(0, q, i));
    OneGenerates(m, s3, r, j);
  }

  lemma OneGenerates(m: Manager, s: State, r: nat, tokenId: string)
    requires r in s.running && s.running[r].Checked? && tokenId !in s.ids
    requires ValidateRefreshToken(m, s.running[r].presented, s.clock).Ok?
    ensures var t := Step(m, s, Generate(0, r, tokenId));
      && r in t.running && t.running[r].Generated? && t.running[r].presented == s.running[r].presented
      && (forall q :: q != r && q in s.running ==> q in t.running && t.running[q] == s.running[q])
      && t.clock == s.clock && t.rows == s.rows && t.ids == s.ids + {tokenId}
  {
  }

  /** It happens, for every manager whose refresh tokens live a second or more: a run in which a
      refresh has answered with a token that is not accepted. */
  lemma WorthlessAnswerHappens(m: Manager)
    requires m.refreshTTL >= SECOND
    ensures exists events: seq<Event>, token: Token :: var s := RunFrom(m, Start, events);
      token in s.answers && !Acceptable(m, s, token)
  {
    var racing, token := Race(m, []);
    SecondRefreshFindsNoRow(m, racing, 0, 1, token);
    var updated := racing + [Update(0, 0)];
    var s := RunFrom(m, Start, updated);
    UnmatchedAnswerIsWorthless(m, updated, Update(0, 1), []);
    assert (updated + [Update(0, 1)])[..|updated|] == updated;
    assert !Acceptable(m, RunFrom(m, Start, updated + [Update(0, 1)]), s.running[1].issued);
  }

  lemma Race(m: Manager, none: seq<Event>) returns (events: seq<Event>, token: Token)
    requires none == [] && m.refreshTTL >= SECOND
    ensures Racing(RunFrom(m, Start, events), 0, 1, token)
  {
    var login := Login(0, "s", "u", "e", [], "t0", 1);
    var e0 := OneMore(m, none, login);
    var s := RunFrom(m, Start, e0);
    token := GenerateTokenPair(m, "u", "e", [], "t0", 0).refresh;
    assert s == Step(m, Start, login);
    LoggedIn(m);
    RunIsSound(m, Start, e0);
    BothGenerate(m, s, 0, 1, token, "t1", "t2");
    events := FourMore(m, e0, Check(0, 0, token, true), Check(0, 1, token, true),
                       Generate(0, 0, "t1"), Generate(0, 1, "t2"));
  }

  lemma LoggedIn(m: Manager)
    requires m.refreshTTL >= SECOND
    ensures var s := Step(m, Start, Login(0, "s", "u", "e", [], "t0", 1));
      var token := GenerateTokenPair(m, "u", "e", [], "t0", 0).refresh;
      && Acceptable(m, s, token) && s.running == map[] && s.ids == {"t0"}
  {
    var s := Step(m, Start, Login(0, "s", "u", "e", [], "t0", 1));
    var token := GenerateTokenPair(m, "u", "e", [], "t0", 0).refresh;
    assert s.rows["s"] == Row("u", token, 1, None);
    assert Holds(s.rows["s"], "u", token) && SessionTable.Alive(s.rows["s"], 0);
  }

  lemma FourMore(m: Manager, events: seq<Event>, a: Event, b: Event, c: Event, d: Event) returns (all: seq<Event>)
    ensures RunFrom(m, Start, all) == Step(m, Step(m, Step(m, Step(m, RunFrom(m, Start, events), a), b), c), d)
  {
    var e1 := OneMore(m, events, a);
    var e2 := OneMore(m, e1, b);
    var e3 := OneMore(m, e2, c);
    all := OneMore(m, e3, d);
  }

  lemma OneMore(m: Manager, events: seq<Event>, e: Event) returns (all: seq<Event>)
    ensures RunFrom(m, Start, all) == Step(m, RunFrom(m, Start, events), e)
  {
    all := events + [e];
    assert all[..|events|] == events;
  }
}
