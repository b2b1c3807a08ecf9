/** Whose a token is, and until when it works. */
module Identities {
  import opened AuthCore
  import opened AuthDb
  import opened Machine
  import opened Ledger
  import opened Protocol
  import opened Invariant
  import opened Steps
  import opened Sessions

  // ---------------------------------Provenance----------------------------------

  /** Request `r` registered `u`, or logged in with `u`'s name and password. */
  ghost predicate SignedIn(s: State, r: nat, u: Uuid) {
    r in s.reqs && !s.reqs[r].req.call.Refresh? && Vouched(s, r, u)
  }

  /** `chain` leads from a sign-in as `u` to request `r`: each of its tokens was stored for
      `u` by a request entitled by the tokens before it, and was consumed by the request
      that stored the next; the last one was consumed by `r`. */
  ghost predicate Entitles(s: State, r: nat, u: Uuid, chain: seq<Uuid>)
    decreases |chain|
  {
    if chain == [] then SignedIn(s, r, u)
    else
      var j := chain[|chain| - 1];
      && r in s.reqs && OriginOf(s.reqs[r].req.call) == Rotated(j)
      && j in s.ledger && s.ledger[j].row.userId == u && s.ledger[j].fate == Spent(r)
      && Entitles(s, s.ledger[j].storedBy, u, chain[..|chain| - 1])
  }

  lemma {:induction false} ChainOf(s: State, r: nat, u: Uuid) returns (chain: seq<Uuid>)
    requires Inv(s) && r in s.reqs && Vouched(s, r, u)
    ensures Entitles(s, r, u, chain)
    decreases if r in s.reqs && OriginOf(s.reqs[r].req.call).Rotated? && OriginOf(s.reqs[r].req.call).jti in s.ledger
              then s.ledger[OriginOf(s.reqs[r].req.call).jti].depth + 1 else 0
  {
    var call := s.reqs[r].req.call;
    if call.Refresh? {
      var j := call.token.claims.jti;
      StorerVouched(s, j);
      hide Inv;
      var before := ChainOf(s, s.ledger[j].storedBy, u);
      chain := before + [j];
      assert chain[..|chain| - 1] == before;
    } else {
      chain := [];
    }
  }

  /** The request that stored a token was itself entitled, by a shorter way. */
  lemma StorerVouched(s: State, j: Uuid)
    requires Inv(s) && j in s.ledger
    ensures var life := s.ledger[j];
            && life.storedBy in s.reqs && Vouched(s, life.storedBy, life.row.userId)
            && (var origin := OriginOf(s.reqs[life.storedBy].req.call);
                origin.Rotated? ==> origin.jti in s.ledger && s.ledger[origin.jti].depth < life.depth)
  {
    hide TablesOk, Flights, Fates, Deliveries, Vouched;
    assert BirthOk(s, j);
    assert MintOk(s, j);
  }

  /** A token some client can present to a built server. */
  ghost predicate Arrives(s: State, server: nat, token: Token) {
    && Built(s, server)
    && (token.Jwt? && token.secret == ServerConfig(s, server).secret ==> token in s.delivered)
  }

  /** Provenance: what the extractor accepts was issued, with the access lifetime, for its
      `sub` by a request that a finite chain of rotations entitles, from a registration of
      that user or a login with that user's password. And `me` answers what a lookup would. */
  lemma Provenance(s: State, server: nat, token: Token)
    requires Reachable(s) && Arrives(s, server, token)
    requires Extract(token, ServerConfig(s, server), s.clock).Ok?
    ensures var c := token.claims;
            && c.jti in s.issued && s.issued[c.jti].claims == c && c.kind == Access
            && s.issued[c.jti].req in s.reqs && c.iat <= s.clock
            && c.exp == ClaimExpiry(c.iat, s.reqs[s.issued[c.jti].req].req.cfg.accessTtl)
            && (exists chain :: Entitles(s, s.issued[c.jti].req, c.sub, chain))
            && c.sub in s.db.users
            && Me(c) == Identity(c.sub, s.db.users[c.sub].username)
  {
    ReachableInv(s);
    AcceptedWasIssued(s, token);
    hide Inv;
    var chain := ChainOf(s, s.issued[token.claims.jti].req, token.claims.sub);
  }

  lemma AcceptedWasIssued(s: State, token: Token)
    requires Inv(s) && token in s.delivered
    ensures token.Jwt?
    ensures var c := token.claims;
            && c.jti in s.issued && s.issued[c.jti].claims == c
            && s.issued[c.jti].req in s.reqs && Vouched(s, s.issued[c.jti].req, c.sub)
            && c.sub in s.db.users && c.username == s.db.users[c.sub].username
            && c.iat <= s.clock
            && c.exp == ClaimExpiry(c.iat, var cfg := s.reqs[s.issued[c.jti].req].req.cfg;
                                           if c.kind == Access then cfg.accessTtl else cfg.refreshTtl)
  {
    hide TablesOk, Flights, Births, Fates, Vouched;
    assert DeliveredOk(s, token);
    assert MintOk(s, token.claims.jti);
    VouchedUser(s, s.issued[token.claims.jti].req, token.claims.sub);
  }

  // ---------------------------------Registration----------------------------------

  /** The `create_user` of request `r` has made `username` the name of user `u`. */
  ghost predicate Won(s: State, r: nat, u: Uuid, username: string, password: string) {
    r in s.reqs && s.reqs[r].req.call == Register(username, password) && u in s.creators && s.creators[u] == r
  }

  lemma WinnerRow(s: State, r: nat, u: Uuid, n: string, p: string)
    requires Inv(s) && Won(s, r, u, n, p)
    ensures u in s.db.users && n in s.db.names && s.db.names[n] == u
    ensures s.db.users[u].username == n && s.db.users[u].passwordHash.password == p
  {
    hide Flights, Mints, Births, Fates, Deliveries, Mirrors, StoresOnce;
    assert CreatorOk(s, u);
  }

  /** Registration has one winner: of all registrations of one name, at any time and in any
      order, at most one creates a user, and only one. */
  lemma OneWinner(s: State, q: nat, r: nat, u: Uuid, v: Uuid, n: string, p: string, p': string)
    requires Reachable(s) && Won(s, q, u, n, p) && Won(s, r, v, n, p')
    ensures q == r && u == v
  {
    ReachableInv(s);
    WinnerRow(s, q, u, n, p);
    WinnerRow(s, r, v, n, p');
  }

  /** From then on the winner's row never changes, and whatever else happens, even if the
      winner is dropped, a login under that name passes its check exactly with the
      winner's password. */
  lemma LoginIffWinnersPassword(s: State, acts: seq<Action>, w: nat, u: Uuid, n: string, p: string,
                                r: nat, input: Input, attempt: string)
    requires Reachable(s) && Won(s, w, u, n, p) && Valid(s, acts)
    requires Enabled(Run(s, acts), Step(r, input)) && input.Go? && input.ok
    requires Run(s, acts).reqs[r].req.pc == Finding(n, attempt)
    ensures var s' := Run(s, acts);
            && u in s.db.users && u in s'.db.users && s'.db.users[u] == s.db.users[u]
            && StepOf(s', r, input).reqs[r].req.pc ==
               if attempt == p then Identified(UserOf(s.db, u)) else Done(Rejected(InvalidCredentials))
  {
    ReachableInv(s);
    WinnerRow(s, w, u, n, p);
    RunKeepsInv(s, acts);
    var s' := Run(s, acts);
    WinnerStays(s, s', w, u, n, p);
    WinnerRow(s', w, u, n, p);
    hide Inv, Reachable, Grows, StepOf;
    FindDecides(s', r, input, u, n, attempt);
  }

  /** The check of a login at its step. */
  lemma FindDecides(s: State, r: nat, input: Input, u: Uuid, n: string, attempt: string)
    requires Enabled(s, Step(r, input)) && input.Go? && input.ok && s.reqs[r].req.pc == Finding(n, attempt)
    requires n in s.db.names && s.db.names[n] == u && u in s.db.users
    ensures StepOf(s, r, input).reqs[r].req.pc ==
            if s.db.users[u].passwordHash.password == attempt then Identified(UserOf(s.db, u))
            else Done(Rejected(InvalidCredentials))
  {
    StatementStep(s, r, input);
    hide StepOf;
  }

  lemma WinnerStays(s: State, s': State, w: nat, u: Uuid, n: string, p: string)
    requires Grows(s, s') && Won(s, w, u, n, p) && u in s.db.users
    ensures Won(s', w, u, n, p) && u in s'.db.users && s'.db.users[u] == s.db.users[u]
  {
    assert Continues(s.reqs[w], s'.reqs[w]);
  }

  // ---------------------------------Rows and claims----------------------------------

  /** The claims issued with a refresh row. */
  function ClaimsOf(s: State, j: Uuid): Claims
    requires j in s.issued
  {
    s.issued[j].claims
  }

  lemma RowFacts(s: State, j: Uuid)
    requires Inv(s) && j in s.ledger
    ensures j in s.issued && s.ledger[j].storedBy in s.reqs && s.ledger[j].row.userId in s.db.users
    ensures var c, life, ttl := s.issued[j].claims, s.ledger[j], s.reqs[s.ledger[j].storedBy].req.cfg.refreshTtl;
            && c.jti == j && c.kind == TokenKind.Refresh && c.sub == life.row.userId
            && c.username == s.db.users[life.row.userId].username
            && c.iat <= s.clock && c.exp == ClaimExpiry(c.iat, ttl)
            && (InRange(s, life.storedBy) ==> c.exp <= life.row.expiresAt <= life.row.createdAt + ttl)
  {
    hide TablesOk, Flights, Fates, Deliveries, Vouched, InRange;
    assert BirthOk(s, j);
    assert MintOk(s, j);
    MintVouched(s, j);
    VouchedUser(s, s.issued[j].req, s.issued[j].claims.sub);
  }

  lemma VouchedUser(s: State, r: nat, u: Uuid)
    requires r in s.reqs && Vouched(s, r, u)
    ensures u in s.db.users
  {
  }

  /** Row and claims agree: a refresh row has one issued token, of that id, user and name;
      every delivered token of that id is it; and while the lifetime of the server that
      issued it stays in the 64-bit range, the token expires first and the row within a lifetime of its creation. */
  lemma RowsMatchClaims(s: State, j: Uuid)
    requires Reachable(s) && j in s.db.tokens
    ensures j in s.issued && j in s.ledger && s.ledger[j].storedBy in s.reqs
    ensures var c, row, ttl := ClaimsOf(s, j), s.db.tokens[j], s.reqs[s.ledger[j].storedBy].req.cfg.refreshTtl;
            && c.jti == j && c.kind == TokenKind.Refresh && c.sub == row.userId
            && row.userId in s.db.users && c.username == s.db.users[row.userId].username
            && (InRange(s, s.ledger[j].storedBy) ==> c.iat + ttl == c.exp <= row.expiresAt <= row.createdAt + ttl)
            && (forall token :: token in s.delivered && token.Jwt? && token.claims.jti == j ==> token.claims == c)
  {
    ReachableInv(s);
    Parts(s);
    hide Inv, Flights, Mints, Births, Fates, WellFormed, CreatorsOk, StoresOnce, DeliveredOk;
    RowFacts(s, j);
    if InRange(s, s.ledger[j].storedBy) {
      LifetimesAgree(ClaimsOf(s, j).iat, s.reqs[s.ledger[j].storedBy].req.cfg.refreshTtl);
    }
    forall token | token in s.delivered && token.Jwt? && token.claims.jti == j
      ensures token.claims == ClaimsOf(s, j)
    {
      AcceptedWasIssued(s, token) by { assert Inv(s) by { ReachableInv(s); } }
    }
  }

  // ---------------------------------Expiry----------------------------------

  /** The lifetime under which `j` was issued is in range. */
  ghost predicate StorerInRange(s: State, j: Uuid) {
    j in s.ledger && s.ledger[j].storedBy in s.reqs && InRange(s, s.ledger[j].storedBy)
  }

  /** A refresh that passed was verified within the leeway of its token's expiry, and its
      consume was bound to a time strictly before the row's. */
  lemma PassedInTime(s: State, r: nat)
    requires Reachable(s) && PassedConsume(s, r)
    ensures var f := s.reqs[r];
            && |f.script| > 1 && f.script[0].Go? && f.script[1].Go?
            && f.req.call.token.Jwt? && f.req.call.token.claims.jti in s.ledger
            && f.script[0].now <= f.req.call.token.claims.exp + f.req.cfg.leeway
            && AsI64(f.script[1].now) < s.ledger[f.req.call.token.claims.jti].row.expiresAt
  {
    ReachableInv(s);
    ConsumerSpent(s, r);
    Parts(s);
    hide Inv, Mints, Births, Deliveries, TablesOk, PcOk, Vouched;
    AtRequest(s, r);
    assert FateOk(s, s.reqs[r].req.call.token.claims.jti);
  }

  /** And a live token is never refused as expired at a time before its expiry claim. */
  lemma NeverRefusedEarly(s: State, r: nat, input: Input)
    requires Reachable(s) && Enabled(s, Step(r, input)) && input.Go? && input.ok
    requires s.reqs[r].req.pc.Consuming? && s.reqs[r].req.pc.claims.jti in s.db.tokens
    requires StorerInRange(s, s.reqs[r].req.pc.claims.jti)
    requires |s.reqs[r].script| > 1 && s.reqs[r].script[1].Go?
    requires s.reqs[r].script[1].now < s.reqs[r].req.pc.claims.exp
    ensures StepOf(s, r, input).reqs[r].req.pc == Resolving(s.reqs[r].req.pc.claims)
  {
    var c := s.reqs[r].req.pc.claims;
    hide Inv, Reachable, InRange, Record, Enter;
    ReachableInv(s);
    ConsumeFacts(s, r);
    RowFacts(s, c.jti);
    StatementStep(s, r, input);
    hide StepOf;
  }

  /** What a request at its consume is about to consume. */
  lemma ConsumeFacts(s: State, r: nat)
    requires Inv(s) && r in s.reqs && s.reqs[r].req.pc.Consuming?
    ensures var c, f := s.reqs[r].req.pc.claims, s.reqs[r];
            && c.jti in s.ledger && c.jti in s.issued && s.issued[c.jti].claims == c
            && (c.jti in s.db.tokens ==> s.db.tokens[c.jti] == s.ledger[c.jti].row)
            && (|f.script| > 1 && f.script[1].Go? ==> f.req.pc.now == AsI64(f.script[1].now))
  {
    Parts(s);
    hide Inv, Mints, Births, Fates, WellFormed, StoresOnce, CreatorsOk;
    assert FlightOk(s, r);
    assert DeliveredOk(s, s.reqs[r].req.call.token);
  }

  // ---------------------------------References----------------------------------

  /** Every reference to a user resolves: rows and issued tokens name users, no refresh
      ends with USER_NOT_FOUND, and no store breaks a foreign or primary key. */
  lemma ReferencesResolve(s: State)
    requires Reachable(s)
    ensures forall j :: j in s.db.tokens ==> s.db.tokens[j].userId in s.db.users
    ensures forall i :: i in s.issued ==> s.issued[i].claims.sub in s.db.users
    ensures forall r :: r in s.reqs ==> s.reqs[r].req.pc != Done(Rejected(UserNotFound))
    ensures forall r :: r in s.reqs && s.reqs[r].req.pc.Resolving? ==>
              Answer(s.db, Pending(s.reqs[r].req.pc).value).Found?
    ensures forall r :: r in s.reqs && s.reqs[r].req.pc.Storing? ==>
              Answer(s.db, Pending(s.reqs[r].req.pc).value).Inserted?
  {
    ReachableInv(s);
    Parts(s);
    hide Inv, Reachable, Flights, Mints, Births, Fates, Deliveries, StoresOnce, CreatorsOk, Answer;
    forall i | i in s.issued
      ensures s.issued[i].claims.sub in s.db.users
    {
      IssuedToUser(s, i);
    }
    forall r | r in s.reqs
      ensures s.reqs[r].req.pc != Done(Rejected(UserNotFound))
      ensures s.reqs[r].req.pc.Resolving? ==> Answer(s.db, Pending(s.reqs[r].req.pc).value).Found?
      ensures s.reqs[r].req.pc.Storing? ==> Answer(s.db, Pending(s.reqs[r].req.pc).value).Inserted?
    {
      LookupAnswers(s, r);
    }
  }

  lemma IssuedToUser(s: State, i: Uuid)
    requires Mints(s) && i in s.issued
    ensures s.issued[i].claims.sub in s.db.users
  {
    assert MintOk(s, i);
  }

  lemma LookupAnswers(s: State, r: nat)
    requires Flights(s) && Births(s) && Mirrors(s.ledger, s.db) && r in s.reqs
    ensures s.reqs[r].req.pc != Done(Rejected(UserNotFound))
    ensures s.reqs[r].req.pc.Resolving? ==> Answer(s.db, Pending(s.reqs[r].req.pc).value).Found?
    ensures s.reqs[r].req.pc.Storing? ==> Answer(s.db, Pending(s.reqs[r].req.pc).value).Inserted?
  {
    AtRequest(s, r);
    if s.reqs[r].req.pc.Storing? {
      UnstoredToken(s, r);
    }
    hide Flights, Births, ScriptOk, FlightOk;
  }

  // ---------------------------------Continuation----------------------------------

  /** A client as it should be: `r` presented a refresh token it was given, did so alone,
      and was verified and read the clock for its consume before the token's expiry; its
      user was not logged out; and neither the storage nor the encoding failed it, nor was
      it dropped. */
  ghost predicate Disciplined(s: State, r: nat) {
    && r in s.reqs && s.reqs[r].req.call.Refresh?
    && var f, token := s.reqs[r], s.reqs[r].req.call.token;
       && token in s.delivered && token.Jwt? && token.claims.kind == TokenKind.Refresh
       && (forall k :: 0 <= k < 2 && k < |f.script| && f.script[k].Go? ==> f.script[k].now < token.claims.exp)
       && (forall q :: q in s.reqs && OriginOf(s.reqs[q].req.call) == Rotated(token.claims.jti) ==> q == r)
       && token.claims.jti in s.ledger && !s.ledger[token.claims.jti].fate.Withdrawn?
       && f.req.pc.Done? && f.req.pc != Done(Rejected(Database)) && f.req.pc != Done(Rejected(EncodeFailed))
  }

  lemma SameSecret(s: State, r: nat)
    requires Flights(s) && Deliveries(s) && r in s.reqs && s.reqs[r].req.call.Refresh?
    requires s.reqs[r].req.call.token in s.delivered
    ensures s.reqs[r].req.call.token.Jwt? && s.reqs[r].req.call.token.secret == s.reqs[r].req.cfg.secret
    ensures s.reqs[r].req.call.token.claims.jti in s.issued
    ensures s.issued[s.reqs[r].req.call.token.claims.jti].claims == s.reqs[r].req.call.token.claims
  {
    assert FlightOk(s, r);
    assert DeliveredOk(s, s.reqs[r].req.call.token);
  }

  /** Nobody else has spent the token. */
  lemma SoleSpender(s: State, r: nat)
    requires Fates(s) && Disciplined(s, r)
    ensures var life := s.ledger[s.reqs[r].req.call.token.claims.jti]; life.fate.Live? || life.fate == Spent(r)
  {
    assert FateOk(s, s.reqs[r].req.call.token.claims.jti);
  }

  /** Why a refresh was refused. */
  lemma RefusedWhy(s: State, r: nat)
    requires r in s.reqs && PcOk(s, r) && ScriptOk(s.reqs[r]) && s.reqs[r].req.call.Refresh?
    requires s.reqs[r].req.pc == Done(Rejected(InvalidRefreshToken))
    ensures var f := s.reqs[r];
            && |f.script| > 1 && f.script[1].Go? && f.req.call.token.Jwt? && f.req.call.token.claims.jti in s.ledger
            && var life := s.ledger[f.req.call.token.claims.jti];
               life.fate != Spent(r) && (life.fate.Live? ==> life.row.expiresAt <= AsI64(f.script[1].now))
  {
  }

  /** It was not refused as a replay or too late: */
  lemma NotRefused(s: State, r: nat)
    requires Inv(s) && Disciplined(s, r) && StorerInRange(s, s.reqs[r].req.call.token.claims.jti)
    ensures s.reqs[r].req.pc != Done(Rejected(InvalidRefreshToken))
  {
    var f, c := s.reqs[r], s.reqs[r].req.call.token.claims;
    Parts(s);
    hide InRange, Refused, Flights, Mints, Births, TablesOk, Vouched;
    RowFacts(s, c.jti) by { Parts(s); }
    hide Inv;
    SoleSpender(s, r);
    SameSecret(s, r);
    if f.req.pc == Done(Rejected(InvalidRefreshToken)) {
      AtRequest(s, r);
      RefusedWhy(s, r);
    }
  }

  /** nor by the verification. */
  lemma NotRejected(s: State, r: nat)
    requires Flights(s) && Deliveries(s) && Disciplined(s, r)
    requires s.reqs[r].req.pc != Done(Rejected(InvalidRefreshToken))
    ensures s.reqs[r].req.pc.outcome.Tokens?
  {
    AtRequest(s, r);
    SameSecret(s, r);
    hide Flights, Deliveries, FlightOk, PcOk;
    VerifiedInTime(s.reqs[r]);
    assert s.reqs[r].req.pc != Done(Rejected(UserNotFound)) by { NotMissing(s, r); }
  }

  lemma NotMissing(s: State, r: nat)
    requires r in s.reqs && PcOk(s, r)
    ensures s.reqs[r].req.pc != Done(Rejected(UserNotFound))
  {
  }

  /** Why a refresh can have been turned away before its consume, and none of it applies. */
  lemma VerifiedInTime(f: Flight)
    requires ScriptOk(f) && f.req.call.Refresh? && f.req.pc.Done?
    requires var token := f.req.call.token;
             && token.Jwt? && token.secret == f.req.cfg.secret && token.claims.kind == TokenKind.Refresh
             && (|f.script| > 0 && f.script[0].Go? ==> f.script[0].now < token.claims.exp)
    ensures f.req.pc.outcome.Rejected? ==> f.req.pc.outcome.error in {InvalidRefreshToken, UserNotFound, Database, EncodeFailed}
  {
  }

  /** The refresh token a request answered with. */
  function Returned(s: State, r: nat): Option<Token> {
    if r in s.reqs && s.reqs[r].req.pc.Done? && s.reqs[r].req.pc.outcome.Tokens?
    then Some(s.reqs[r].req.pc.outcome.refresh) else None
  }

  /** `next` is the token of the same session `k` rotations after `first`. */
  ghost predicate Rotates(s: State, first: Token, next: Token, k: nat) {
    && first.Jwt? && next.Jwt? && first.claims.jti in s.ledger && next.claims.jti in s.ledger
    && var life, life' := s.ledger[first.claims.jti], s.ledger[next.claims.jti];
       life'.root == life.root && life'.depth == life.depth + k && life'.row.userId == life.row.userId
  }

  /** The token a refresh returned is the successor of the one it presented. */
  lemma ReturnedIsNext(s: State, r: nat)
    requires Inv(s) && r in s.reqs && s.reqs[r].req.call.Refresh? && Returned(s, r).Some?
    ensures Rotates(s, s.reqs[r].req.call.token, Returned(s, r).value, 1)
  {
    ConsumerSpent(s, r);
    Parts(s);
    hide Inv, TablesOk, Mints, Fates, Deliveries, Flights, FlightOk, Vouched;
    AtRequest(s, r);
    assert BirthOk(s, s.reqs[r].req.pc.outcome.refresh.claims.jti);
  }

  /** Such a client gets the next token. */
  lemma DisciplinedSucceeds(s: State, r: nat)
    requires Inv(s) && Disciplined(s, r) && StorerInRange(s, s.reqs[r].req.call.token.claims.jti)
    ensures r in s.reqs && s.reqs[r].req.call.Refresh?
    ensures Returned(s, r).Some? && Rotates(s, s.reqs[r].req.call.token, Returned(s, r).value, 1)
  {
    NotRefused(s, r);
    NotRejected(s, r) by { Parts(s); }
    hide Inv, StorerInRange, Rotates;
    ReturnedIsNext(s, r);
  }

  lemma RotatesOn(s: State, first: Token, next: Token, last: Token, k: nat)
    requires Rotates(s, first, next, k) && Rotates(s, next, last, 1)
    ensures Rotates(s, first, last, k + 1)
  {
  }

  /** Each request of `rs` presents what the one before it was answered. */
  ghost predicate Consecutive(s: State, rs: seq<nat>) {
    forall k :: 0 <= k < |rs| - 1 && Returned(s, rs[k]).Some? && rs[k + 1] in s.reqs ==>
      s.reqs[rs[k + 1]].req.call == Call.Refresh(Returned(s, rs[k]).value)
  }

  /** Session continuation: a client that presents, one after the other, the latest refresh
      token it was given, each alone and before its expiry, is never turned away, for any
      number of rotations and whatever else runs: the refreshes of `rs` all return tokens,
      the k-th the one k + 1 rotations after the first presented. */
  lemma {:induction false} SessionContinues(s: State, rs: seq<nat>, first: Token)
    requires Reachable(s) && rs != []
    requires forall k :: 0 <= k < |rs| ==> Disciplined(s, rs[k]) && StorerInRange(s, s.reqs[rs[k]].req.call.token.claims.jti)
    requires rs[0] in s.reqs && s.reqs[rs[0]].req.call == Call.Refresh(first) && Consecutive(s, rs)
    ensures forall k :: 0 <= k < |rs| ==> Returned(s, rs[k]).Some? && Rotates(s, first, Returned(s, rs[k]).value, k + 1)
    decreases |rs|
  {
    hide Inv, StorerInRange, Reachable, Disciplined, Rotates, Returned;
    ReachableInv(s);
    var n := |rs| - 1;
    DisciplinedSucceeds(s, rs[n]);
    if n > 0 {
      SessionContinues(s, rs[..n], first);
      assert forall k :: 0 <= k < n ==> rs[..n][k] == rs[k];
      assert s.reqs[rs[n]].req.call == Call.Refresh(Returned(s, rs[n - 1]).value);
      RotatesOn(s, first, Returned(s, rs[n - 1]).value, Returned(s, rs[n]).value, n);
    }
  }
}
