/** What is answered when, in terms of calls, clock readings and tables alone. */
module Answers {
  import opened AuthCore
  import opened AuthDb
  import opened Machine
  import opened Ledger
  import opened Protocol
  import opened Invariant
  import opened Steps
  import opened Traces
  import opened Readings
  import opened Identities
  import opened Server
  import WriteOnce

  // ---------------------------------Whole requests----------------------------------

  /** The token does not verify under the secret. */
  predicate Foreign(token: Token, secret: string) {
    token.Malformed? || token.secret != secret
  }

  /** The handler was dropped before it ran. */
  predicate NeverRan(f: Flight) {
    f.req.pc.Dropped? && f.script == [Cancel]
  }

  /** A registration is turned away for its name or password, before any statement, exactly
      if the one is empty or the other shorter than 8 bytes. */
  ghost predicate RegisterAnswers(f: Flight)
    requires f.req.call.Register?
  {
    var n, p, pc := f.req.call.username, f.req.call.password, f.req.pc;
    && (pc == Done(Rejected(EmptyUsername)) ==> n == "")
    && (pc == Done(Rejected(WeakPassword)) ==> n != "" && |p| < 8)
    && (!pc.Start? && !NeverRan(f) ==>
          && (n == "" ==> pc == Done(Rejected(EmptyUsername)))
          && (n != "" && |p| < 8 ==> pc == Done(Rejected(WeakPassword))))
    && (n == "" || |p| < 8 ==> f.req.ran == [])
    && (pc == Done(Rejected(AlreadyExists)) ==> |f.req.ran| == 1 && f.req.ran[0].InsertUser? && f.req.ran[0].username == n)
    && (pc.Done? && pc.outcome.Rejected? ==>
          pc.outcome.error in {EmptyUsername, WeakPassword, PasswordHashFailed, AlreadyExists, Database, EncodeFailed})
    && (pc.Creating? ==> pc.user.username == n) && pc != Done(LoggedOut)
    && !(pc.Finding? || pc.Verified? || pc.Consuming? || pc.Resolving? || pc.Revoking? || pc.Revoked?)
    && (Stage(pc) <= 3 ==> f.req.ran == [])
  }

  ghost predicate LoginAnswers(f: Flight)
    requires f.req.call.Login?
  {
    var pc := f.req.pc;
    && (pc.Done? && pc.outcome.Rejected? ==> pc.outcome.error in {InvalidCredentials, Database, EncodeFailed})
    && (pc == Done(Rejected(InvalidCredentials)) ==> f.req.ran == [SelectByName(f.req.call.username)])
    && (pc.Finding? ==> pc.username == f.req.call.username && f.req.ran == [])
    && !(pc.Hashing? || pc.Hashed? || pc.Creating? || pc.Verified? || pc.Consuming? || pc.Resolving? || pc.Revoking? || pc.Revoked?)
    && pc != Done(LoggedOut)
  }

  /** A refresh or logout is turned away for its token, before any statement, exactly by
      what the token is and when the handler read the clock first. */
  ghost predicate TokenAnswers(f: Flight)
    requires f.req.call.Refresh? || f.req.call.Logout?
  {
    var token, cfg, pc := f.req.call.token, f.req.cfg, f.req.pc;
    && (f.script == [] ==> pc.Start?)
    && (f.script != [] && f.script[0].Cancel? ==> pc.Dropped? && f.req.ran == [])
    && (f.script != [] && f.script[0].Go? ==>
          var now := f.script[0].now;
          && (pc == Done(Rejected(TokenInvalid)) <==> Foreign(token, cfg.secret))
          && (pc == Done(Rejected(TokenExpired)) <==> !Foreign(token, cfg.secret) && token.claims.exp + cfg.leeway < now)
          && (pc == Done(Rejected(WrongKind)) <==>
                !Foreign(token, cfg.secret) && now <= token.claims.exp + cfg.leeway && token.claims.kind != TokenKind.Refresh)
          && !pc.Start?)
    && (pc.Done? && pc.outcome.Rejected? && pc.outcome.error in {TokenInvalid, TokenExpired, WrongKind} ==> f.req.ran == [])
    && !(pc.Hashing? || pc.Hashed? || pc.Creating? || pc.Finding?)
  }

  /** A logout that has deleted has deleted for the user its token names, and answers so. */
  ghost predicate LogoutAnswers(f: Flight)
    requires f.req.call.Logout?
  {
    var token, pc := f.req.call.token, f.req.pc;
    && (pc.Start? || pc.Revoking? || pc.Revoked? || pc.Done? || pc.Dropped?)
    && (pc.Revoking? ==> token.Jwt? && pc.claims == token.claims && f.req.ran == [])
    && (pc.Start? ==> f.req.ran == [])
    && (f.req.ran != [] ==>
          && token.Jwt? && f.req.ran == [DeleteTokensOf(token.claims.sub)]
          && (pc.Revoked? || pc == Done(LoggedOut) || pc.Dropped?))
    && (pc.Revoked? || pc == Done(LoggedOut) ==> f.req.ran != [])
    && (pc.Done? && pc.outcome.Rejected? ==> pc.outcome.error in {TokenInvalid, TokenExpired, WrongKind, Database})
  }

  ghost predicate AnswersFit(f: Flight) {
    && (f.req.call.Register? ==> RegisterAnswers(f))
    && (f.req.call.Login? ==> LoginAnswers(f))
    && (f.req.call.Refresh? || f.req.call.Logout? ==> TokenAnswers(f))
    && (f.req.call.Logout? ==> LogoutAnswers(f))
  }

  lemma RegisterKept(t: Tables, f: Flight, g: Flight, input: Input)
    requires f.req.call.Register? && RegisterAnswers(f) && !Finished(f.req.pc)
    requires g.req == NextReq(t, f.req, input) && g.script == f.script + [input] && (f.req.pc.Start? ==> f.script == [])
    ensures RegisterAnswers(g)
  {
    hide Answer;
  }

  lemma LoginKept(t: Tables, f: Flight, g: Flight, input: Input)
    requires f.req.call.Login? && LoginAnswers(f) && !Finished(f.req.pc)
    requires g.req == NextReq(t, f.req, input) && (f.req.pc.Start? ==> f.req.ran == [])
    ensures LoginAnswers(g)
  {
    hide Answer;
  }

  lemma TokenKept(t: Tables, f: Flight, g: Flight, input: Input)
    requires (f.req.call.Refresh? || f.req.call.Logout?) && TokenAnswers(f) && !Finished(f.req.pc)
    requires g.req == NextReq(t, f.req, input) && g.script == f.script + [input] && (f.req.pc.Start? <==> f.script == [])
    requires f.req.pc.Start? ==> f.req.ran == []
    ensures TokenAnswers(g)
  {
    hide Answer;
    assert f.script != [] ==> g.script[0] == f.script[0];
  }

  lemma LogoutKept(t: Tables, f: Flight, g: Flight, input: Input)
    requires f.req.call.Logout? && LogoutAnswers(f) && !Finished(f.req.pc) && g.req == NextReq(t, f.req, input)
    ensures LogoutAnswers(g)
  {
    hide Answer;
  }

  ghost predicate FlightFits(f: Flight) {
    AnswersFit(f) && (f.req.pc.Start? <==> f.script == []) && (f.req.pc.Start? ==> f.req.ran == [])
  }

  ghost predicate AllFit(s: State) {
    forall r {:trigger FlightFits(s.reqs[r])} :: r in s.reqs ==> FlightFits(s.reqs[r])
  }

  lemma StepFits(s: State, r: nat, input: Input)
    requires Enabled(s, Step(r, input)) && FlightFits(s.reqs[r])
    ensures r in StepOf(s, r, input).reqs && FlightFits(StepOf(s, r, input).reqs[r])
  {
    FlightAfter(s, r, input);
    var f, g := s.reqs[r], StepOf(s, r, input).reqs[r];
    assert g.req.call == f.req.call && !g.req.pc.Start? by { LeavesStart(s.db, f.req, input); }
    hide StepOf, NextReq, RegisterAnswers, LoginAnswers, TokenAnswers, LogoutAnswers;
    match f.req.call
    case Register(_, _) => RegisterKept(s.db, f, g, input);
    case Login(_, _) => LoginKept(s.db, f, g, input);
    case Refresh(_) => TokenKept(s.db, f, g, input);
    case Logout(_) => TokenKept(s.db, f, g, input); LogoutKept(s.db, f, g, input);
  }

  lemma LeavesStart(t: Tables, req: Req, input: Input)
    requires !Finished(req.pc)
    ensures NextReq(t, req, input).call == req.call && !NextReq(t, req, input).pc.Start?
  {
    hide Answer, VerifyKind;
  }

  lemma ActionFits(s: State, a: Action)
    requires AllFit(s) && Enabled(s, a)
    ensures AllFit(Apply(s, a))
  {
    var s' := Apply(s, a);
    forall r | r in s'.reqs
      ensures FlightFits(s'.reqs[r])
    {
      if a.Step? && a.r == r {
        StepFits(s, r, a.input);
      } else if a.Begin? && a.r == r {
      } else {
        assert r in s.reqs && s'.reqs[r] == s.reqs[r];
      }
    }
    hide StepOf;
  }

  lemma {:induction false} RunFits(s: State, acts: seq<Action>)
    requires AllFit(s) && Valid(s, acts)
    ensures AllFit(Run(s, acts))
    decreases |acts|
  {
    hide AllFit, Enabled, Apply;
    if acts != [] {
      ActionFits(s, acts[0]);
      RunFits(Apply(s, acts[0]), acts[1..]);
    }
  }

  /** So it is for every request of every reachable state. */
  lemma RequestsAreAnswered(s: State, r: nat)
    requires Reachable(s) && r in s.reqs
    ensures FlightFits(s.reqs[r])
  {
    var acts :| Valid(INITIAL, acts) && Run(INITIAL, acts) == s;
    RunFits(INITIAL, acts);
    hide FlightFits;
  }

  /** Every user has a name, and a password of at least 8 bytes. */
  lemma UsersAreChecked(s: State, u: Uuid)
    requires Reachable(s) && u in s.db.users
    ensures s.db.users[u].username != "" && |s.db.users[u].passwordHash.password| >= 8
  {
    ReachableInv(s);
    ReachableTraced(s);
    Parts(s);
    hide Inv, Flights, Mints, Births, Fates, Deliveries;
    assert CreatorOk(s, u) && CreatorRan(s, u);
    RequestsAreAnswered(s, s.creators[u]);
    hide Reachable, AllTraced;
  }

  // ---------------------------------Steps that the database serves----------------------------------

  /** A registration creates its user exactly if nobody has the name, and the user alone. */
  lemma CreateDecides(s: State, r: nat, input: Input)
    requires Reachable(s) && Enabled(s, Step(r, input)) && input.Go? && input.ok && s.reqs[r].req.pc.Creating?
    ensures var call, pc, s' := s.reqs[r].req.call, s.reqs[r].req.pc, StepOf(s, r, input);
            && call.Register? && pc.user.username == call.username && pc.user.passwordHash.password == call.password
            && if exists u :: u in s.db.users && s.db.users[u].username == call.username then
                 s'.reqs[r].req.pc == Done(Rejected(AlreadyExists)) && s'.db == s.db
               else
                 && s'.reqs[r].req.pc == Identified(pc.user) && pc.user.id !in s.db.users
                 && s'.db.users == s.db.users[pc.user.id := UserRow(call.username, pc.user.passwordHash, pc.createdAt)]
                 && s'.db.tokens == s.db.tokens
  {
    ReachableInv(s);
    NewUserId(s, r);
    AtRequest(s, r) by { Parts(s); }
    NamesFound(s, s.reqs[r].req.call.username) by { Parts(s); }
    StatementStep(s, r, input);
    hide Inv, Reachable, StepOf, FlightOk, ScriptOk, WellFormed;
  }

  /** A name is taken if and only if some user has it. */
  lemma NamesFound(s: State, n: string)
    requires TablesOk(s)
    ensures n in s.db.names <==> exists u :: u in s.db.users && s.db.users[u].username == n
    ensures n in s.db.names ==> s.db.names[n] in s.db.users && s.db.users[s.db.names[n]].username == n
    ensures forall u :: u in s.db.users && s.db.users[u].username == n ==> n in s.db.names && s.db.names[n] == u
  {
    hide Mirrors, StoresOnce, CreatorsOk;
  }

  /** The id a registration is about to insert is nobody's. */
  lemma NewUserId(s: State, r: nat)
    requires Reachable(s) && r in s.reqs && s.reqs[r].req.pc.Creating?
    ensures s.reqs[r].req.pc.user.id !in s.db.users
  {
    ReachableStamped(s);
    ReachableInv(s);
    var u := s.reqs[r].req.pc.user.id;
    if u in s.db.users {
      assert FlightStamped(s, r) && UserStamped(s, u);
      var i :| DrewAt(s.reqs[r], i, u);
      var k :| DrewAt(s.reqs[s.creators[u]], k, u);
      assert CreatorOk(s, u) by { Parts(s); }
      assert false;
    }
  }

  /** A login goes on exactly if some user has its name and password; an unknown name and a
      wrong password get the same answer. */
  lemma LoginDecides(s: State, r: nat, input: Input)
    requires Reachable(s) && Enabled(s, Step(r, input)) && input.Go? && input.ok && s.reqs[r].req.pc.Finding?
    ensures var call, s' := s.reqs[r].req.call, StepOf(s, r, input);
            && call.Login? && s'.db == s.db
            && (s'.reqs[r].req.pc.Identified? <==>
                exists u :: u in s.db.users && s.db.users[u].username == call.username
                            && s.db.users[u].passwordHash.password == call.password)
            && (s'.reqs[r].req.pc.Identified? ==>
                  var user := s'.reqs[r].req.pc.user;
                  && user.id in s.db.users && user == UserOf(s.db, user.id)
                  && user.username == call.username && user.passwordHash.password == call.password)
            && (!s'.reqs[r].req.pc.Identified? ==> s'.reqs[r].req.pc == Done(Rejected(InvalidCredentials)))
  {
    ReachableInv(s);
    AtRequest(s, r) by { Parts(s); }
    NamesFound(s, s.reqs[r].req.call.username) by { Parts(s); }
    StatementStep(s, r, input);
    hide Inv, Reachable, StepOf, FlightOk, ScriptOk, WellFormed;
  }

  /** A refresh that has consumed goes on as the owner of the token. */
  lemma LookupDecides(s: State, r: nat, input: Input)
    requires Reachable(s) && Enabled(s, Step(r, input)) && input.Go? && input.ok && s.reqs[r].req.pc.Resolving?
    ensures var c, s' := s.reqs[r].req.pc.claims, StepOf(s, r, input);
            && c.sub in s.db.users && s'.db == s.db
            && s'.reqs[r].req.pc == Identified(User(c.sub, s.db.users[c.sub].username, s.db.users[c.sub].passwordHash))
  {
    ReachableInv(s);
    LookupAnswers(s, r) by { Parts(s); }
    StatementStep(s, r, input);
    hide Inv, Reachable, StepOf;
  }

  /** A store adds the row it was bound to, and nothing else. */
  lemma StoreDecides(s: State, r: nat, input: Input)
    requires Reachable(s) && Enabled(s, Step(r, input)) && input.Go? && input.ok && s.reqs[r].req.pc.Storing?
    ensures var pc, s' := s.reqs[r].req.pc, StepOf(s, r, input);
            && s'.reqs[r].req.pc == Stored(pc.access, pc.refresh) && pc.refresh.jti !in s.db.tokens
            && s'.db.tokens == s.db.tokens[pc.refresh.jti := TokenRow(pc.user.id, pc.expiresAt, pc.createdAt)]
            && s'.db.users == s.db.users
  {
    ReachableInv(s);
    LookupAnswers(s, r) by { Parts(s); }
    StatementStep(s, r, input);
    hide Inv, Reachable, StepOf;
  }

  /** A logout leaves exactly the rows of the other users. */
  lemma DeleteDecides(s: State, r: nat, input: Input)
    requires Reachable(s) && Enabled(s, Step(r, input)) && input.Go? && input.ok && s.reqs[r].req.pc.Revoking?
    ensures s.reqs[r].req.call.Logout?
    ensures var token, s' := s.reqs[r].req.call.token, StepOf(s, r, input);
            && token.Jwt? && s'.reqs[r].req.pc == Revoked
            && (forall j :: j in s'.db.tokens <==> j in s.db.tokens && s.db.tokens[j].userId != token.claims.sub)
            && (forall j :: j in s'.db.tokens ==> s'.db.tokens[j] == s.db.tokens[j])
            && s'.db.users == s.db.users
  {
    ReachableInv(s);
    AtRequest(s, r) by { Parts(s); }
    StatementStep(s, r, input);
    hide Inv, Reachable, StepOf, FlightOk, ScriptOk;
  }

  /** The last step of a handler: the pair it issued, under its server's secret. */
  lemma FinishDecides(s: State, r: nat, input: Input)
    requires Enabled(s, Step(r, input)) && input.Go? && (s.reqs[r].req.pc.Stored? || s.reqs[r].req.pc.Revoked?)
    ensures var req, s' := s.reqs[r].req, StepOf(s, r, input);
            && s'.db == s.db
            && (req.pc.Stored? ==>
                  s'.reqs[r].req.pc == Done(Tokens(Jwt(req.cfg.secret, req.pc.access), Jwt(req.cfg.secret, req.pc.refresh))))
            && (req.pc.Revoked? ==> s'.reqs[r].req.pc == Done(LoggedOut))
  {
  }

  /** A step of a reachable state that fails says what failed, and one that does not fail
      does not say so; neither a failed step nor a drop changes the tables. */
  lemma FailureDecides(s: State, r: nat, input: Input)
    requires Reachable(s) && Enabled(s, Step(r, input))
    ensures var pc, s' := s.reqs[r].req.pc, StepOf(s, r, input);
            && (input.Cancel? ==> s'.db == s.db) && (input.Cancel? <==> s'.reqs[r].req.pc == Dropped)
            && (input.Go? && !input.ok ==>
                  && s'.db == s.db
                  && s'.reqs[r].req.pc ==
                     Done(Rejected(if pc.Hashing? then PasswordHashFailed
                                   else if pc.Identified? || pc.HasAccess? then EncodeFailed else Database)))
            && (input.Go? && input.ok ==>
                  s'.reqs[r].req.pc !in {Done(Rejected(PasswordHashFailed)), Done(Rejected(EncodeFailed)), Done(Rejected(Database))})
  {
    var req := s.reqs[r].req;
    FlightAfter(s, r, input);
    if input.Cancel? || !input.ok {
      FailedStep(s.db, req, input);
    } else if req.pc.Storing? {
      StoreDecides(s, r, input);
    } else {
      ServedStep(s.db, req, input);
    }
    assert StepOf(s, r, input).db == NextTables(s.db, req, input);
    hide Reachable, StepOf, NextReq, NextTables;
  }

  lemma FailedStep(t: Tables, req: Req, input: Input)
    requires !Finished(req.pc) && (input.Cancel? || (!input.ok && Failure(req.pc).Some?))
    ensures NextTables(t, req, input) == t && (input.Cancel? <==> NextReq(t, req, input).pc == Dropped)
    ensures input.Go? ==>
              NextReq(t, req, input).pc ==
              Done(Rejected(if req.pc.Hashing? then PasswordHashFailed
                            else if req.pc.Identified? || req.pc.HasAccess? then EncodeFailed else Database))
  {
  }

  lemma ServedStep(t: Tables, req: Req, input: Input)
    requires !Finished(req.pc) && input.Go? && input.ok && !req.pc.Storing?
    ensures var pc := NextReq(t, req, input).pc;
            pc !in {Dropped, Done(Rejected(PasswordHashFailed)), Done(Rejected(EncodeFailed)), Done(Rejected(Database))}
  {
    hide Answer;
  }

  // ---------------------------------Access tokens----------------------------------

  /** What the extractor of any built server answers, at any later time, to a delivered
      token, and to one that is not of the agreed secret. */
  lemma ExtractorDecides(s: State, acts: seq<Action>, token: Token, server: nat)
    requires Reachable(s) && Valid(s, acts) && Built(Run(s, acts), server)
    requires token in s.delivered || Foreign(token, ServerConfig(Run(s, acts), server).secret)
    ensures var s' := Run(s, acts); var secret := ServerConfig(s', server).secret;
            && SIGNING_SECRET in s'.boot.rows && secret == s'.boot.rows[SIGNING_SECRET]
            && (token in s.delivered ==> !Foreign(token, secret))
            && Extract(token, ServerConfig(s', server), s'.clock) ==
               if Foreign(token, secret) then Err(TokenInvalid)
               else if token.claims.exp + s'.servers[server].leeway < s'.clock then Err(TokenExpired)
               else if token.claims.kind != Access then Err(WrongKind)
               else Ok(token.claims)
  {
    ReachableInv(s);
    RunKeepsInv(s, acts);
    var s' := Run(s, acts);
    BuiltSecret(s', server) by { Parts(s'); }
    if token in s.delivered {
      DeliveredLater(s, s', token);
    }
    hide Inv, Reachable, Grows, Valid, Run;
  }

  lemma DeliveredLater(s: State, s': State, token: Token)
    requires Inv(s) && Inv(s') && Grows(s, s') && token in s.delivered
    ensures SIGNING_SECRET in s'.boot.rows && token.Jwt? && token.secret == s'.boot.rows[SIGNING_SECRET]
  {
    Parts(s');
    hide Inv, TablesOk, Flights, Mints, Births, Fates, ReqsGrow, LedgerGrows, WriteOnce.Keeps;
    assert DeliveredOk(s', token);
  }

  /** The access token a request answers is accepted, whatever runs, at every server built
      by then, as long as the clock has not passed the beginning of the request by more
      than the access lifetime of its server. */
  lemma AccessWorks(s: State, acts: seq<Action>, r: nat, server: nat)
    requires Reachable(s) && Valid(s, acts) && Built(Run(s, acts), server)
    requires r in s.reqs && s.reqs[r].req.pc.Done? && s.reqs[r].req.pc.outcome.Tokens?
    requires s.clock + s.reqs[r].req.cfg.accessTtl < TWO_64
    requires Run(s, acts).clock <= Began(s.reqs[r]) + s.reqs[r].req.cfg.accessTtl
    ensures var access, s' := s.reqs[r].req.pc.outcome.access, Run(s, acts);
            access.Jwt? && Extract(access, ServerConfig(s', server), s'.clock) == Ok(access.claims)
  {
    hide Inv, Reachable, Valid, Run, Extract, Began;
    AnswersWith(s, r);
    var access := s.reqs[r].req.pc.outcome.access;
    ExtractorDecides(s, acts, access, server);
    IssuedInTime(s, access.claims.jti);
    assert access.claims.exp == access.claims.iat + s.reqs[r].req.cfg.accessTtl;
  }

  /** The access token a request answered with, and its lifetime. */
  lemma AnswersWith(s: State, r: nat)
    requires Reachable(s) && r in s.reqs && s.reqs[r].req.pc.Done? && s.reqs[r].req.pc.outcome.Tokens?
    ensures s.reqs[r].req.pc.outcome.access.Jwt? && s.reqs[r].req.pc.outcome.access in s.delivered
    ensures var c := s.reqs[r].req.pc.outcome.access.claims;
            && c.jti in s.issued && s.issued[c.jti] == Mint(c, r) && c.kind == Access
            && c.exp == ClaimExpiry(c.iat, s.reqs[r].req.cfg.accessTtl)
  {
    ReachableInv(s);
    AtRequest(s, r) by { Parts(s); }
    assert MintOk(s, s.reqs[r].req.pc.outcome.access.claims.jti) by { Parts(s); }
    hide Inv, Reachable, FlightOk, ScriptOk, Vouched, ClaimExpiry;
  }

  /** Lifetimes are those the server was launched with: the access tokens issued by a
      request of a server, at any later time, live as long as it was told, or 900 seconds;
      the refresh tokens likewise, or 604800 seconds. */
  lemma LifetimesAsGiven(s: State, r: nat, server: nat, call: Call, acts: seq<Action>, i: Uuid)
    requires Reachable(s) && Enabled(s, Begin(r, server, call)) && Valid(Apply(s, Begin(r, server, call)), acts)
    requires var s' := Run(Apply(s, Begin(r, server, call)), acts); i in s'.issued && s'.issued[i].req == r
    ensures var c, opts := Run(Apply(s, Begin(r, server, call)), acts).issued[i].claims, s.servers[server];
            && (c.kind == Access ==>
                  c.exp == ClaimExpiry(c.iat, match opts.accessTtl case Some(secs) => secs case None => 900))
            && (c.kind == TokenKind.Refresh ==>
                  c.exp == ClaimExpiry(c.iat, match opts.refreshTtl case Some(secs) => secs case None => 604_800))
  {
    hide Inv, Reachable, Grows, Valid, Run, ClaimExpiry, ServerConfig, CanPresent;
    ReachableInv(s);
    var s1 := Apply(s, Begin(r, server, call));
    BeginKeepsInv(s, r, server, call);
    RunKeepsInv(s1, acts);
    MintLifetime(Run(s1, acts), i);
    ReadsGrow(s1, Run(s1, acts), r);
    BuiltLifetimes(s, server);
  }

  lemma MintLifetime(s: State, i: Uuid)
    requires Inv(s) && i in s.issued
    ensures s.issued[i].req in s.reqs
    ensures var c, cfg := s.issued[i].claims, s.reqs[s.issued[i].req].req.cfg;
            c.exp == ClaimExpiry(c.iat, if c.kind == Access then cfg.accessTtl else cfg.refreshTtl)
  {
    assert MintOk(s, i) by { Parts(s); }
    hide Inv, Vouched, ClaimExpiry;
  }
}
