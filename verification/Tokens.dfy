/** Signed tokens: what the manager issues, and what it accepts again. */
module Jwt {
  const SECOND := 1_000_000_000

  datatype Result<T> = Ok(value: T) | Err(error: Error)
  datatype Error = InvalidToken | ExpiredToken | TokenNotYetValid

  datatype Claims = Claims(
    user: string, email: string, roles: seq<string>, tokenId: string, isRefresh: bool,
    expiresAt: int, notBefore: int)

  /** A token string is either unreadable or carries claims under some signature. */
  datatype Token = Garbled | Signed(claims: Claims, hmac: bool, secret: string)

  datatype TokenPair = TokenPair(access: Token, refresh: Token, expiresAt: int)

  datatype Manager = Manager(accessSecret: string, refreshSecret: string, accessTTL: int, refreshTTL: int)

  /** Numeric dates count whole seconds; times are nanoseconds. */
  function NumericDate(t: int): int { t - t % SECOND }

  function GenerateTokenPair(m: Manager, user: string, email: string, roles: seq<string>, tokenId: string, now: int)
    : TokenPair
  {
    var access := Claims(user, email, roles, tokenId, false, NumericDate(now + m.accessTTL), NumericDate(now));
    var refresh := Claims(user, email, roles, tokenId, true, NumericDate(now + m.refreshTTL), NumericDate(now));
    TokenPair(Signed(access, true, m.accessSecret), Signed(refresh, true, m.refreshSecret), now + m.accessTTL)
  }

  function ValidateToken(token: Token, secret: string, isRefresh: bool, now: int): Result<Claims> {
    if token.Garbled? || !token.hmac || token.secret != secret then Err(InvalidToken)
    else if now >= token.claims.expiresAt then Err(ExpiredToken)
    else if now < token.claims.notBefore then Err(TokenNotYetValid)
    else if token.claims.isRefresh != isRefresh then Err(InvalidToken)
    else Ok(token.claims)
  }

  function ValidateAccessToken(m: Manager, token: Token, now: int): Result<Claims> {
    ValidateToken(token, m.accessSecret, false, now)
  }

  function ValidateRefreshToken(m: Manager, token: Token, now: int): Result<Claims> {
    ValidateToken(token, m.refreshSecret, true, now)
  }

  function RefreshTokens(m: Manager, token: Token, tokenId: string, now: int): Result<TokenPair> {
    match ValidateRefreshToken(m, token, now)
    case Err(e) => Err(e)
    case Ok(c) => Ok(GenerateTokenPair(m, c.user, c.email, c.roles, tokenId, now))
  }

  /** What a token must be to be good for a purpose: signed by HMAC with the secret of that purpose, of
      that kind, and within its own dates. The answer is then the claims in it. */
  lemma AcceptedExactly(m: Manager, token: Token, t: int)
    ensures ValidateRefreshToken(m, token, t).Ok? <==>
      && token.Signed? && token.hmac && token.secret == m.refreshSecret && token.claims.isRefresh
      && token.claims.notBefore <= t < token.claims.expiresAt
    ensures ValidateAccessToken(m, token, t).Ok? <==>
      && token.Signed? && token.hmac && token.secret == m.accessSecret && !token.claims.isRefresh
      && token.claims.notBefore <= t < token.claims.expiresAt
    ensures forall c :: ValidateRefreshToken(m, token, t) == Ok(c) ==> token.Signed? && c == token.claims
    ensures forall c :: ValidateAccessToken(m, token, t) == Ok(c) ==> token.Signed? && c == token.claims
  {
  }

  /** Which error a token is refused with: the signature comes first, then the dates, then the kind. */
  lemma RefusedBecause(token: Token, secret: string, isRefresh: bool, t: int)
    ensures var r := ValidateToken(token, secret, isRefresh, t);
      var signed := token.Signed? && token.hmac && token.secret == secret;
      && (r == Err(ExpiredToken) <==> signed && token.claims.expiresAt <= t)
      && (r == Err(TokenNotYetValid) <==> signed && t < token.claims.notBefore && t < token.claims.expiresAt)
      && (r == Err(InvalidToken) <==>
            (signed ==> token.claims.notBefore <= t < token.claims.expiresAt && token.claims.isRefresh != isRefresh))
  {
  }

  /** Both tokens of a pair carry the identity they were issued for; a manager with other secrets
      accepts neither of them, for either purpose, at any time. */
  lemma PairSpeaksFor(m: Manager, user: string, email: string, roles: seq<string>, tokenId: string, now: int)
    ensures var p := GenerateTokenPair(m, user, email, roles, tokenId, now);
      && SpeaksFor(p.access, user, email, roles, tokenId) && SpeaksFor(p.refresh, user, email, roles, tokenId)
      && !p.access.claims.isRefresh && p.refresh.claims.isRefresh && p.expiresAt == now + m.accessTTL
      && forall other: Manager, t: int ::
           && (ValidateAccessToken(other, p.access, t).Ok? ==> other.accessSecret == m.accessSecret)
           && (ValidateRefreshToken(other, p.refresh, t).Ok? ==> other.refreshSecret == m.refreshSecret)
           && ValidateAccessToken(other, p.refresh, t).Err? && ValidateRefreshToken(other, p.access, t).Err?
  {
  }

  predicate SpeaksFor(token: Token, user: string, email: string, roles: seq<string>, tokenId: string) {
    && token.Signed? && token.claims.user == user && token.claims.email == email
    && token.claims.roles == roles && token.claims.tokenId == tokenId
  }

  /** A rotation succeeds exactly for a refresh token that this manager would accept, and the new pair,
      both tokens of it, speaks for whom the presented one did. */
  lemma RotationSpeaksForTheSame(m: Manager, token: Token, tokenId: string, now: int)
    ensures var r := RefreshTokens(m, token, tokenId, now);
      && (r.Ok? <==>
            && token.Signed? && token.hmac && token.secret == m.refreshSecret && token.claims.isRefresh
            && token.claims.notBefore <= now < token.claims.expiresAt)
      && (r.Ok? ==>
            var c := token.claims;
            && SpeaksFor(r.value.access, c.user, c.email, c.roles, tokenId)
            && SpeaksFor(r.value.refresh, c.user, c.email, c.roles, tokenId))
  {
    AcceptedExactly(m, token, now);
  }

  /** No token is ever good for both purposes, whatever the two secrets are. */
  lemma KindsAreApart(m: Manager, token: Token, t1: int, t2: int)
    ensures !(ValidateAccessToken(m, token, t1).Ok? && ValidateRefreshToken(m, token, t2).Ok?)
  {
  }

  /** A pair issued at `now` is good from then on until the whole second in which it expires begins, and
      not after. */
  lemma IssuedPairWindow(m: Manager, user: string, email: string, roles: seq<string>, tokenId: string, now: int, t: int)
    requires now <= t
    ensures var p := GenerateTokenPair(m, user, email, roles, tokenId, now);
      && (ValidateAccessToken(m, p.access, t).Ok? <==> t / 1_000_000_000 < (now + m.accessTTL) / 1_000_000_000)
      && (ValidateRefreshToken(m, p.refresh, t).Ok? <==> t / 1_000_000_000 < (now + m.refreshTTL) / 1_000_000_000)
      && ValidateRefreshToken(m, p.access, t).Err? && ValidateAccessToken(m, p.refresh, t).Err?
  {
    WholeSeconds(t, now + m.accessTTL);
    WholeSeconds(t, now + m.refreshTTL);
  }

  /** Numeric dates compare as whole seconds do. */
  lemma WholeSeconds(t: int, expiry: int)
    ensures t < NumericDate(expiry) <==> t / 1_000_000_000 < expiry / 1_000_000_000
    ensures NumericDate(t) <= t
  {
  }

  // ----- Chains of rotations -----

  datatype Rotation = Rotation(at: int, tokenId: string)

  /** The pair at the end of a chain, if every rotation was accepted. */
  function Chain(m: Manager, first: TokenPair, steps: seq<Rotation>): Result<TokenPair> {
    if steps == [] then Ok(first)
    else
      var last := steps[|steps| - 1];
      match Chain(m, first, steps[..|steps| - 1])
      case Err(e) => Err(e)
      case Ok(pair) => RefreshTokens(m, pair.refresh, last.tokenId, last.at)
  }

  /** When the latest pair of the chain was issued. */
  function LatestIssue(issued: int, steps: seq<Rotation>): int {
    if steps == [] then issued else steps[|steps| - 1].at
  }

  /** Each rotation comes before the previous refresh token runs out, and time does not go back. */
  predicate InTime(m: Manager, issued: int, steps: seq<Rotation>) {
    steps == [] ||
    var before, at := steps[..|steps| - 1], steps[|steps| - 1].at;
    var previous := LatestIssue(issued, before);
    InTime(m, issued, before) && NumericDate(previous) <= at < NumericDate(previous + m.refreshTTL)
  }

  /** A chain is accepted exactly when every step is in time; it then still speaks for the same
      user with the same email and roles, and only its latest step bounds how long it lives. */
  lemma {:induction false} ChainKeepsIdentity(m: Manager, user: string, email: string, roles: seq<string>,
      tokenId: string, issued: int, steps: seq<Rotation>)
    ensures var end := Chain(m, GenerateTokenPair(m, user, email, roles, tokenId, issued), steps);
      && (end.Ok? <==> InTime(m, issued, steps))
      && (end.Ok? && steps != [] ==>
            var last := steps[|steps| - 1];
            end.value == GenerateTokenPair(m, user, email, roles, last.tokenId, last.at))
  {
    if steps != [] {
      ChainKeepsIdentity(m, user, email, roles, tokenId, issued, steps[..|steps| - 1]);
    }
  }
}

/** Token ids that are refused although the token has not expired yet. */
module Blacklist {
  import opened Common
  import opened Redis

  type Store = View<string, string>

  function RedisKey(tokenId: string): string { "blacklist:" + tokenId }

  class TokenBlacklist {
    const server: Server<string, string>

    constructor (server: Server<string, string>)
      ensures this.server == server
    {
      this.server := server;
    }

    method Add(tokenId: string, expiresAt: int)
      modifies server
      ensures server.Seen() == Added(old(server.Seen()), tokenId, expiresAt)
    {
      var ttl := expiresAt - server.now;
      if ttl <= 0 {
        return;
      }
      server.Set(RedisKey(tokenId), "1", ttl);
    }

    method IsBlacklisted(tokenId: string) returns (r: bool)
      ensures r <==> RedisKey(tokenId) in server.Seen().blobs
    {
      r := server.Exists(RedisKey(tokenId));
    }

    method Remove(tokenId: string)
      modifies server
      ensures server.Seen() == Removed(old(server.Seen()), tokenId)
    {
      server.Del(RedisKey(tokenId));
    }
  }

  function Added(v: Store, tokenId: string, expiresAt: int): Store {
    if expiresAt - v.now <= 0 then v
    else v.(blobs := v.blobs[RedisKey(tokenId) := Item("1", Some(expiresAt))])
  }

  function Removed(v: Store, tokenId: string): Store { v.(blobs := v.blobs - {RedisKey(tokenId)}) }

  /** Exactly this id is put on the list, for the time until the given expiry, if that is still to come. */
  lemma AddEffect(v: Store, tokenId: string, expiresAt: int)
    ensures var t := Added(v, tokenId, expiresAt);
      && (forall id :: RedisKey(id) in t.blobs <==> RedisKey(id) in v.blobs || (id == tokenId && v.now < expiresAt))
      && (v.now < expiresAt ==> t.blobs[RedisKey(tokenId)].expiry == Some(expiresAt))
      && (forall id :: id != tokenId && RedisKey(id) in v.blobs ==> t.blobs[RedisKey(id)] == v.blobs[RedisKey(id)])
  {
    forall id | id != tokenId
      ensures RedisKey(id) != RedisKey(tokenId)
    {
      KeysApart(id, tokenId);
    }
  }

  lemma RemoveEffect(v: Store, tokenId: string)
    ensures var t := Removed(v, tokenId);
      && (forall id :: RedisKey(id) in t.blobs <==> RedisKey(id) in v.blobs && id != tokenId)
      && (forall id :: RedisKey(id) in t.blobs ==> t.blobs[RedisKey(id)] == v.blobs[RedisKey(id)])
  {
    forall id | id != tokenId
      ensures RedisKey(id) != RedisKey(tokenId)
    {
      KeysApart(id, tokenId);
    }
  }

  datatype Op = Add(wait: nat, tokenId: string, expiresAt: int) | Remove(wait: nat, tokenId: string)

  function After(v: Store, op: Op): Store {
    var u := Later(v, op.wait);
    match op
    case Add(_, id, e) => Added(u, id, e)
    case Remove(_, id) => Removed(u, id)
  }

  function Run(v: Store, ops: seq<Op>): Store {
    if ops == [] then v else After(Run(v, ops[..|ops| - 1]), ops[|ops| - 1])
  }

  /** At this instant a token that expires at `exp` is refused: it is listed, or it has expired. */
  ghost predicate Refused(v: Store, tokenId: string, exp: int) {
    RedisKey(tokenId) in v.blobs || exp <= v.now
  }

  ghost predicate RefusedForGood(v: Store, tokenId: string, exp: int) {
    forall d: nat :: Refused(Later(v, d), tokenId, exp)
  }

  /** The entry lasts at least as long as the token. */
  predicate Outlasts(v: Store, tokenId: string, exp: int) {
    || exp <= v.now
    || (RedisKey(tokenId) in v.blobs && Fresh(v.blobs[RedisKey(tokenId)], v.now)
        && (v.blobs[RedisKey(tokenId)].expiry.None? || exp <= v.blobs[RedisKey(tokenId)].expiry.value))
  }

  lemma OutlastsIsForGood(v: Store, tokenId: string, exp: int)
    ensures Outlasts(v, tokenId, exp) <==> RefusedForGood(v, tokenId, exp)
  {
    if Outlasts(v, tokenId, exp) {
      forall d: nat ensures Refused(Later(v, d), tokenId, exp) {
      }
    } else {
      var k := RedisKey(tokenId);
      var d: nat := if k in v.blobs && Fresh(v.blobs[k], v.now) then v.blobs[k].expiry.value - v.now else 0;
      assert !Refused(Later(v, d), tokenId, exp);
    }
  }

  lemma KeysApart(a: string, b: string)
    ensures RedisKey(a) == RedisKey(b) ==> a == b
  {
    assert RedisKey(a)[10..] == a && RedisKey(b)[10..] == b;
  }

  /** The two ways to let a listed token back in: remove it, or add it again with an earlier
      deadline that is still to come. Both only matter while the token lives. */
  predicate Readmits(now: int, op: Op, tokenId: string, exp: int) {
    && now + op.wait < exp
    && op.tokenId == tokenId
    && (op.Add? ==> now + op.wait < op.expiresAt < exp)
  }

  /** A refused token stays refused through an operation exactly when that is not one of the two. */
  lemma StepKeepsRefusal(v: Store, op: Op, tokenId: string, exp: int)
    requires RefusedForGood(v, tokenId, exp)
    ensures RefusedForGood(After(v, op), tokenId, exp) <==> !Readmits(v.now, op, tokenId, exp)
  {
    OutlastsIsForGood(v, tokenId, exp);
    OutlastsIsForGood(After(v, op), tokenId, exp);
    KeysApart(op.tokenId, tokenId);
  }

  lemma AddingRefuses(v: Store, tokenId: string, exp: int)
    ensures RefusedForGood(Added(v, tokenId, exp), tokenId, exp)
  {
    OutlastsIsForGood(Added(v, tokenId, exp), tokenId, exp);
  }

  predicate NeverReadmits(v: Store, ops: seq<Op>, tokenId: string, exp: int) {
    ops == [] ||
    var before, op := ops[..|ops| - 1], ops[|ops| - 1];
    NeverReadmits(v, before, tokenId, exp) && !Readmits(Run(v, before).now, op, tokenId, exp)
  }

  /** From Add on, through any run that does not readmit it, the token is refused at every instant. */
  lemma {:induction false} BlacklistedStaysRefused(v: Store, ops: seq<Op>, tokenId: string, exp: int)
    requires NeverReadmits(Added(v, tokenId, exp), ops, tokenId, exp)
    ensures RefusedForGood(Run(Added(v, tokenId, exp), ops), tokenId, exp)
  {
    var start := Added(v, tokenId, exp);
    if ops == [] {
      AddingRefuses(v, tokenId, exp);
    } else {
      var before := ops[..|ops| - 1];
      BlacklistedStaysRefused(v, before, tokenId, exp);
      StepKeepsRefusal(Run(start, before), ops[|ops| - 1], tokenId, exp);
    }
  }
}

/** Listing and expiry meet: one begins to refuse a token no later than the other stops. */
module RevokedTokens {
  import opened Redis
  import Jwt
  import Blacklist

  /**
   At every instant after it was put on the list, until the expiry in its own claims, a token is on
   the list, or it has expired and its validator says so. (No validator consults the list; a caller
   has to ask both.)
   */
  lemma ListedUntilExpired(token: Jwt.Token, isRefresh: bool, v: Blacklist.Store, ops: seq<Blacklist.Op>, d: nat)
    requires token.Signed? && token.hmac
    requires var id, exp := token.claims.tokenId, token.claims.expiresAt;
      Blacklist.NeverReadmits(Blacklist.Added(v, id, exp), ops, id, exp)
    ensures var id, exp := token.claims.tokenId, token.claims.expiresAt;
      var w := Later(Blacklist.Run(Blacklist.Added(v, id, exp), ops), d);
      || Blacklist.RedisKey(id) in w.blobs
      || (exp <= w.now && Jwt.ValidateToken(token, token.secret, isRefresh, w.now) == Jwt.Err(Jwt.ExpiredToken))
  {
    var id, exp := token.claims.tokenId, token.claims.expiresAt;
    Blacklist.BlacklistedStaysRefused(v, ops, id, exp);
    assert Blacklist.Refused(Later(Blacklist.Run(Blacklist.Added(v, id, exp), ops), d), id, exp);
  }

  /** The list alone refuses nothing: a listed token is accepted exactly as before. */
  lemma ListingChangesNoVerdict(m: Jwt.Manager, token: Jwt.Token, v: Blacklist.Store)
    requires token.Signed? && Jwt.ValidateAccessToken(m, token, v.now).Ok?
    ensures var w := Blacklist.Added(v, token.claims.tokenId, token.claims.expiresAt);
      Blacklist.RedisKey(token.claims.tokenId) in w.blobs && Jwt.ValidateAccessToken(m, token, w.now).Ok?
  {
  }
}
