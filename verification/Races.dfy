/** Runs that show what can go wrong, from any state with a built server. */
module Races {
  import opened AuthCore
  import opened AuthDb
  import opened Machine
  import opened Ledger
  import opened Protocol
  import opened Invariant
  import opened Steps
  import opened Traces
  import opened Identities
  import opened Revocation
  import opened Finality
  import opened SerialOrder
  import opened Outlived
  import WriteOnce

  // ---------------------------------Making runs----------------------------------

  lemma {:induction false} AboveAll(rs: set<nat>) returns (n: nat)
    ensures forall r :: r in rs ==> r < n
    decreases |rs|
  {
    n := 0;
    if rs != {} {
      var r :| r in rs;
      var m := AboveAll(rs - {r});
      n := m + r + 1;
      assert forall x :: x in rs ==> x == r || x in rs - {r};
    }
  }

  /** A request comes in under a new number. */
  lemma Begins(s: State, acts: seq<Action>, server: nat, call: Call) returns (acts': seq<Action>, r: nat)
    requires Valid(s, acts) && Built(Run(s, acts), server)
    requires CanPresent(Run(s, acts), ServerConfig(Run(s, acts), server).secret, call)
    ensures Valid(s, acts') && r !in Run(s, acts).reqs
    ensures var t, t' := Run(s, acts), Run(s, acts');
            && t'.reqs.Keys == t.reqs.Keys + {r} && t'.reqs[r].req == Req(ServerConfig(t, server), call, Start, [])
            && (forall q :: q in t.reqs ==> t'.reqs[q] == t.reqs[q])
            && t' == t.(reqs := t'.reqs)
  {
    r := AboveAll(Run(s, acts).reqs.Keys);
    acts' := acts + [Begin(r, server, call)];
    Extend(s, acts, Begin(r, server, call));
  }

  /** A request takes its next step at the current time. */
  lemma Moves(s: State, acts: seq<Action>, r: nat) returns (acts': seq<Action>)
    requires Valid(s, acts) && r in Run(s, acts).reqs && !Finished(Run(s, acts).reqs[r].req.pc)
    ensures Valid(s, acts')
    ensures var t, t' := Run(s, acts), Run(s, acts'); var req := t.reqs[r].req;
            && t'.clock == t.clock && t'.boot == t.boot && t'.servers == t.servers
            && t'.reqs.Keys == t.reqs.Keys && (forall q :: q in t.reqs && q != r ==> t'.reqs[q] == t.reqs[q])
            && exists seed :: seed !in t.ids &&
                 var input := Go(t.clock, seed, true);
                 t'.reqs[r].req == NextReq(t.db, req, input) && t'.db == NextTables(t.db, req, input)
  {
    var t := Run(s, acts);
    var seed := FreshId(t.ids);
    var input := Go(t.clock, seed, true);
    acts' := acts + [Step(r, input)];
    assert Enabled(t, Step(r, input));
    Extend(s, acts, Step(r, input));
    hide NextReq, NextTables;
  }

  // ---------------------------------A refresh and a logout----------------------------------

  /** A token with which a refresh would succeed now. */
  ghost predicate Works(s: State, server: nat, token: Token) {
    && Built(s, server) && token in s.delivered && token.Jwt?
    && VerifyKind(token, ServerConfig(s, server), s.clock, TokenKind.Refresh).Ok?
    && Hits(s.db, token.claims.jti, AsI64(s.clock))
  }

  /** After `acts`, `l` deletes the tokens of `u`, and not for good. */
  ghost predicate EndsInVain(s: State, acts: seq<Action>, l: nat, input: Input, u: Uuid) {
    && Valid(s, acts) && Deletes(Run(s, acts), l, input) && LogoutUser(Run(s, acts), l) == u
    && !LoggedOutForGood(StepOf(Run(s, acts), l, input), u)
  }

  /** A refresh and a logout with the same token: the refresh has consumed it, the logout is
      about to delete. */
  ghost predicate Racing(s: State, r: nat, l: nat, c: Claims) {
    && r in s.reqs && s.reqs[r].req.pc == Resolving(c)
    && l in s.reqs && s.reqs[l].req.pc == Revoking(c)
  }

  lemma RaceBegins(s: State, server: nat, token: Token) returns (acts: seq<Action>, r: nat, l: nat)
    requires Works(s, server, token)
    ensures Valid(s, acts) && Racing(Run(s, acts), r, l, token.claims)
  {
    hide Valid, Run;
    acts, r, l := BothBegin(s, server, token);
    acts := RefreshMoves(s, acts, r, l, token);
    acts := LogoutMoves(s, acts, r, l, token);
    acts := ConsumeMoves(s, acts, r, l, token);
  }

  lemma BothBegin(s: State, server: nat, token: Token) returns (acts: seq<Action>, r: nat, l: nat)
    requires Works(s, server, token)
    ensures Valid(s, acts)
    ensures var t := Run(s, acts); var cfg := ServerConfig(s, server);
            && t.clock == s.clock && t.db == s.db && r in t.reqs && l in t.reqs && r != l
            && t.reqs[r].req == Req(cfg, Call.Refresh(token), Start, [])
            && t.reqs[l].req == Req(cfg, Call.Logout(token), Start, [])
  {
    acts, r := Begins(s, [], server, Call.Refresh(token));
    acts, l := Begins(s, acts, server, Call.Logout(token));
  }

  /** The refresh is verified and reads the clock, */
  lemma RefreshMoves(s: State, acts: seq<Action>, r: nat, l: nat, token: Token) returns (acts': seq<Action>)
    requires Valid(s, acts) && r in Run(s, acts).reqs && l in Run(s, acts).reqs && r != l && token.Jwt?
    requires var t := Run(s, acts);
             && t.reqs[r].req.pc.Start? && t.reqs[r].req.call == Call.Refresh(token)
             && VerifyKind(token, t.reqs[r].req.cfg, t.clock, TokenKind.Refresh) == Ok(token.claims)
    ensures Valid(s, acts') && r in Run(s, acts').reqs
    ensures var t, t' := Run(s, acts), Run(s, acts');
            && t'.clock == t.clock && t'.db == t.db && l in t'.reqs && t'.reqs[l] == t.reqs[l]
            && t'.reqs[r].req.pc == Consuming(token.claims, AsI64(t.clock))
  {
    acts' := Moves(s, acts, r);
    acts' := Moves(s, acts', r);
  }

  /** the logout is verified, */
  lemma LogoutMoves(s: State, acts: seq<Action>, r: nat, l: nat, token: Token) returns (acts': seq<Action>)
    requires Valid(s, acts) && r in Run(s, acts).reqs && l in Run(s, acts).reqs && r != l && token.Jwt?
    requires var t := Run(s, acts);
             && t.reqs[l].req.pc.Start? && t.reqs[l].req.call == Call.Logout(token)
             && VerifyKind(token, t.reqs[l].req.cfg, t.clock, TokenKind.Refresh) == Ok(token.claims)
    ensures Valid(s, acts') && l in Run(s, acts').reqs
    ensures var t, t' := Run(s, acts), Run(s, acts');
            && t'.clock == t.clock && t'.db == t.db && r in t'.reqs && t'.reqs[r] == t.reqs[r]
            && t'.reqs[l].req.pc == Revoking(token.claims)
  {
    acts' := Moves(s, acts, l);
  }

  /** and the refresh consumes. */
  lemma ConsumeMoves(s: State, acts: seq<Action>, r: nat, l: nat, token: Token) returns (acts': seq<Action>)
    requires Valid(s, acts) && r in Run(s, acts).reqs && l in Run(s, acts).reqs && r != l && token.Jwt?
    requires var t := Run(s, acts);
             t.reqs[r].req.pc == Consuming(token.claims, AsI64(t.clock)) && Hits(t.db, token.claims.jti, AsI64(t.clock))
    ensures Valid(s, acts') && r in Run(s, acts').reqs
    ensures var t, t' := Run(s, acts), Run(s, acts');
            && l in t'.reqs && t'.reqs[l] == t.reqs[l] && t'.reqs[r].req.pc == Resolving(token.claims)
  {
    acts' := Moves(s, acts, r);
  }

  lemma AboutToDelete(s: State, l: nat, input: Input)
    requires l in s.reqs && s.reqs[l].req.pc.Revoking? && input.Go? && input.now == s.clock && input.seed !in s.ids && input.ok
    ensures Deletes(s, l, input)
  {
  }

  lemma IsOpen(s: State, r: nat)
    requires r in s.reqs && s.reqs[r].req.pc.Resolving?
    ensures OpenFor(s, r, s.reqs[r].req.pc.claims.sub)
  {
  }

  lemma DeleteInput(s: State, l: nat) returns (input: Input)
    requires l in s.reqs && s.reqs[l].req.pc.Revoking?
    ensures Deletes(s, l, input)
  {
    var seed := FreshId(s.ids);
    input := Go(s.clock, seed, true);
    AboutToDelete(s, l, input);
  }

  /** A client that refreshes and logs out at the same time, with any token that works, can
      be left with a live session: the logout answers, yet the refresh stores its token. */
  lemma RefreshOutlivesLogout(s: State, server: nat, token: Token)
    returns (acts: seq<Action>, l: nat, input: Input)
    requires Reachable(s) && Works(s, server, token)
    ensures EndsInVain(s, acts, l, input, token.claims.sub)
  {
    ReachableInv(s);
    hide Reachable, Inv, Valid, Run, Deletes, OpenFor, StepOf, LoggedOutForGood;
    var r: nat;
    acts, r, l := RaceBegins(s, server, token);
    input := DeleteInput(Run(s, acts), l);
    IsOpen(Run(s, acts), r);
    RunKeepsInv(s, acts);
    FinalIff(Run(s, acts), l, input);
  }

  // ---------------------------------A run that is not serial----------------------------------

  /** With the storer of a token, the storer of its root was done before. */
  lemma {:induction false} RootBefore(s: State, l: nat, i: Uuid)
    requires Inv(s) && AllTraced(s) && l in s.reqs && i in s.ledger && s.ledger[i].storedBy in s.reqs[l].after
    ensures s.ledger[i].root in s.ledger && s.ledger[s.ledger[i].root].storedBy in s.reqs[l].after
    decreases if i in s.ledger then s.ledger[i].depth else 0
  {
    hide AllTraced;
    BirthFacts(s, i);
    RootOf(s, i);
    if s.ledger[i].origin.Rotated? {
      ParentStorerBefore(s, i);
      hide Inv;
      assert AfterIsClosed(s, l) by { Closed(s, l); }
      RootBefore(s, l, s.ledger[i].origin.jti);
    }
  }

  lemma Closed(s: State, l: nat)
    requires AllTraced(s) && l in s.reqs
    ensures AfterIsClosed(s, l) && StorerBefore(s, l)
  {
    assert FlightTraced(s, l);
  }

  /** What is left of a race: `l` has deleted, `r` has stored `j`. */
  lemma RaceIsOutlived(s: State, r: nat, l: nat, c: Claims, j: Uuid)
    requires Inv(s) && AllTraced(s) && r in s.reqs && l in s.reqs && j in s.ledger && s.ledger[j].storedBy == r
    requires s.reqs[r].req.call.Refresh? && OriginOf(s.reqs[r].req.call) == Rotated(c.jti)
    requires s.reqs[l].req.call.Logout? && Signed(s.reqs[l].req, c)
    ensures SignedInBefore(s, l, j)
  {
    BirthFacts(s, j);
    RootOf(s, j);
    Closed(s, l);
    hide AllTraced;
    RootBefore(s, l, c.jti);
    var root := s.ledger[j].root;
    AfterInFlight(s, l, s.ledger[root].storedBy);
  }

  lemma AfterInFlight(s: State, l: nat, q: nat)
    requires Inv(s) && l in s.reqs && q in s.reqs[l].after
    ensures q in s.reqs
  {
    assert FlightOk(s, l);
    hide Inv, PcOk, ScriptOk;
  }

  lemma RacersPresent(s: State, r: nat, l: nat, c: Claims)
    requires Inv(s) && Racing(s, r, l, c)
    ensures s.reqs[r].req.call.Refresh? && OriginOf(s.reqs[r].req.call) == Rotated(c.jti)
    ensures s.reqs[l].req.call.Logout? && Signed(s.reqs[l].req, c)
  {
    AtRequest(s, r) by { Parts(s); }
    AtRequest(s, l) by { Parts(s); }
    hide Inv, FlightOk, ScriptOk, Vouched;
  }

  lemma DeleteRuns(s: State, l: nat, input: Input)
    requires Inv(s) && Deletes(s, l, input)
    ensures l in StepOf(s, l, input).reqs && DeleteTokensOf(LogoutUser(s, l)) in StepOf(s, l, input).reqs[l].req.ran
    ensures forall q :: q in s.reqs && q != l ==> q in StepOf(s, l, input).reqs && StepOf(s, l, input).reqs[q] == s.reqs[q]
  {
    StepRuns(s, l, input) by { AtRequest(s, l) by { Parts(s); } }
    hide Inv;
  }

  lemma CallsStay(s: State, s': State, r: nat)
    requires Grows(s, s') && r in s.reqs
    ensures r in s'.reqs && s'.reqs[r].req.call == s.reqs[r].req.call && s'.reqs[r].req.cfg == s.reqs[r].req.cfg
    ensures forall y :: y in s.reqs[r].req.ran ==> y in s'.reqs[r].req.ran
  {
    assert Continues(s.reqs[r], s'.reqs[r]);
    hide WriteOnce.Keeps, ReqsGrow, LedgerGrows;
  }

  /** The race of a refresh and a logout with any token that works can end in a state that
      no serial run explains. */
  lemma RaceIsNotSerial(s: State, server: nat, token: Token) returns (acts: seq<Action>)
    requires Reachable(s) && Works(s, server, token)
    ensures Valid(s, acts) && !IsSerial(Run(s, acts))
  {
    ReachableInv(s);
    hide Reachable, Inv, Valid, Run, Deletes, OpenFor, StepOf, Grows, Lands, IsSerial, AllTraced;
    var r: nat, l: nat;
    acts, r, l := RaceBegins(s, server, token);
    var t := Run(s, acts);
    RunKeepsInv(s, acts);
    RacersPresent(t, r, l, token.claims);
    IsOpen(t, r);
    var input := DeleteInput(t, l);
    var t1 := StepOf(t, l, input);
    assert Enabled(t, Step(l, input)) by { DeleteIsEnabled(t, l, input); }
    Extend(s, acts, Step(l, input));
    StepKeepsInv(t, l, input);
    DeleteRuns(t, l, input);
    DeleteKeepsOthers(t, l, input);
    var u, c := token.claims.sub, token.claims;
    var more, j := StoreComes(t1, r, u);
    acts := acts + [Step(l, input)];
    assert Run(s, acts) == t1;
    assert Valid(t1, more) by { LandsFacts(t1, more, r, u, j); }
    Joins(s, acts, more);
    acts := acts + more;
    var t2 := Run(s, acts);
    RunKeepsInv(t1, more);
    StaysReachable(s, acts);
    CallsStay(t, t1, r);
    CallsStay(t, t1, l);
    CallsStay(t1, t2, r);
    CallsStay(t1, t2, l);
    LandsFacts(t1, more, r, u, j);
    ReachableTraced(t2);
    RaceIsOutlived(t2, r, l, c, j);
    OutlivedIsNotSerial(t2, l, j);
  }

  lemma DeleteIsEnabled(s: State, l: nat, input: Input)
    requires Deletes(s, l, input)
    ensures Enabled(s, Step(l, input)) && Apply(s, Step(l, input)) == StepOf(s, l, input)
  {
  }

  lemma LandsFacts(s: State, acts: seq<Action>, r: nat, u: Uuid, j: Uuid)
    requires Lands(s, acts, r, u, j)
    ensures Valid(s, acts) && j in Run(s, acts).ledger && j in Run(s, acts).db.tokens
    ensures Run(s, acts).ledger[j].storedBy == r && Run(s, acts).ledger[j].row.userId == u
  {
  }

  // ---------------------------------Reaching it----------------------------------

  ghost predicate Leads(s: State, t: State) {
    exists acts :: Valid(s, acts) && Run(s, acts) == t
  }

  lemma LeadsOn(s: State, t: State, u: State)
    requires Leads(s, t) && Leads(t, u)
    ensures Leads(s, u)
  {
    var a :| Valid(s, a) && Run(s, a) == t;
    var b :| Valid(t, b) && Run(t, b) == u;
    Joins(s, a, b);
    assert Valid(s, a + b) && Run(s, a + b) == u;
  }

  /** The request `r` is at the server at time `now`. */
  ghost predicate At(s: State, r: nat, server: nat, cfg: Config, now: u64) {
    && Inv(s) && Built(s, server) && ServerConfig(s, server) == cfg && s.clock == now
    && r in s.reqs && s.reqs[r].req.cfg == cfg
  }

  /** It takes a step at once. */
  lemma Proceeds(s: State, r: nat, server: nat, cfg: Config, now: u64) returns (s': State, seed: string)
    requires At(s, r, server, cfg, now) && !Finished(s.reqs[r].req.pc)
    ensures Leads(s, s') && At(s', r, server, cfg, now) && seed !in s.db.users
    ensures var input := Go(now, seed, true);
            s'.db == NextTables(s.db, s.reqs[r].req, input) && s'.reqs[r].req == NextReq(s.db, s.reqs[r].req, input)
  {
    seed := FreshId(s.ids);
    var input := Go(s.clock, seed, true);
    assert Enabled(s, Step(r, input));
    Extend(s, [], Step(r, input));
    s' := StepOf(s, r, input);
    assert Leads(s, s') by { assert Valid(s, [] + [Step(r, input)]) && Run(s, [] + [Step(r, input)]) == s'; }
    StepKeepsInv(s, r, input);
    ConfigStays(s.db, s.reqs[r].req, input);
    UsersHaveIds(s);
    hide Inv, Grows, NextReq, NextTables, Leads;
  }

  lemma ConfigStays(t: Tables, req: Req, input: Input)
    ensures NextReq(t, req, input).cfg == req.cfg
  {
  }

  lemma UsersHaveIds(s: State)
    requires Inv(s)
    ensures s.db.users.Keys <= s.ids
  {
    hide Flights, Mints, Births, Fates, Deliveries;
    assert forall u :: u in s.db.users ==> CreatorOk(s, u);
  }

  /** The user is created, */
  lemma Creates(s: State, r: nat, server: nat, cfg: Config, now: u64, n: string, p: string) returns (t: State, user: User)
    requires At(s, r, server, cfg, now) && s.reqs[r].req.pc.Start? && s.reqs[r].req.call == Register(n, p)
    requires n != "" && |p| >= 8 && n !in s.db.names
    ensures Leads(s, t) && At(t, r, server, cfg, now) && t.reqs[r].req.pc == Identified(user)
  {
    hide Inv, Leads, ServerConfig, Built;
    var s1, _ := Proceeds(s, r, server, cfg, now);
    var s2, salt := Proceeds(s1, r, server, cfg, now);
    var s3, id := Proceeds(s2, r, server, cfg, now);
    user := User(id, n, Hash(p, salt));
    var seed;
    t, seed := Proceeds(s3, r, server, cfg, now);
    LeadsOn(s, s1, s2);
    LeadsOn(s, s2, s3);
    LeadsOn(s, s3, t);
  }

  lemma LocalMove(t: Tables, req: Req, input: Input)
    requires input.Go? && input.ok && !Finished(req.pc) && Pending(req.pc).None?
    ensures NextReq(t, req, input) == req.(pc := Local(req, input.now, input.seed)) && NextTables(t, req, input) == t
  {
  }

  /** the pair issued and its row bound, */
  lemma Issues(s: State, r: nat, server: nat, cfg: Config, now: u64, user: User) returns (t: State, c: Claims)
    requires At(s, r, server, cfg, now) && s.reqs[r].req.pc == Identified(user)
    ensures Leads(s, t) && At(t, r, server, cfg, now)
    ensures c.exp == ClaimExpiry(now, cfg.refreshTtl) && c.kind == TokenKind.Refresh
    ensures var pc := t.reqs[r].req.pc; pc.Storing? && pc.refresh == c && pc.expiresAt == RowExpiry(now, cfg.refreshTtl)
    ensures var a := t.reqs[r].req.pc.access; a.exp == ClaimExpiry(now, cfg.accessTtl) && a.kind == Access
  {
    hide Inv, Leads, ServerConfig, Built, ClaimExpiry, RowExpiry, AsI64;
    hide NextReq, NextTables;
    var s1, seed := Proceeds(s, r, server, cfg, now);
    LocalMove(s.db, s.reqs[r].req, Go(now, seed, true));
    var s2, jti := Proceeds(s1, r, server, cfg, now);
    LocalMove(s1.db, s1.reqs[r].req, Go(now, jti, true));
    c := Issue(user.id, user.username, now, cfg.refreshTtl, jti, TokenKind.Refresh);
    var s3;
    s3, seed := Proceeds(s2, r, server, cfg, now);
    LocalMove(s2.db, s2.reqs[r].req, Go(now, seed, true));
    t, seed := Proceeds(s3, r, server, cfg, now);
    LocalMove(s3.db, s3.reqs[r].req, Go(now, seed, true));
    LeadsOn(s, s1, s2);
    LeadsOn(s, s2, s3);
    LeadsOn(s, s3, t);
  }

  /** stored and delivered. */
  lemma Delivers(s: State, r: nat, server: nat, cfg: Config, now: u64, c: Claims) returns (t: State)
    requires At(s, r, server, cfg, now) && s.reqs[r].req.pc.Storing? && s.reqs[r].req.pc.refresh == c
    ensures Leads(s, t) && At(t, r, server, cfg, now) && Jwt(cfg.secret, c) in t.delivered
    ensures Jwt(cfg.secret, s.reqs[r].req.pc.access) in t.delivered
    ensures c.jti in t.db.tokens && t.db.tokens[c.jti].expiresAt == s.reqs[r].req.pc.expiresAt
  {
    LookupAnswers(s, r) by { Parts(s); }
    hide Inv, Leads, ServerConfig, Built;
    var s1, seed1 := Proceeds(s, r, server, cfg, now);
    var seed2;
    StoresAndAnswers(s.db, s.reqs[r].req, Go(now, seed1, true));
    hide NextTables;
    t, seed2 := Proceeds(s1, r, server, cfg, now);
    Answers(s1.db, s1.reqs[r].req, Go(now, seed2, true));
    hide NextReq, Answer;
    AnswersDeliver(t, r);
    LeadsOn(s, s1, t);
  }

  lemma StoresAndAnswers(t: Tables, req: Req, input: Input)
    requires req.pc.Storing? && input.Go? && input.ok && Answer(t, Pending(req.pc).value).Inserted?
    ensures NextReq(t, req, input).pc == Stored(req.pc.access, req.pc.refresh) && NextReq(t, req, input).cfg == req.cfg
    ensures req.pc.refresh.jti in NextTables(t, req, input).tokens
    ensures NextTables(t, req, input).tokens[req.pc.refresh.jti].expiresAt == req.pc.expiresAt
  {
  }

  lemma Answers(t: Tables, req: Req, input: Input)
    requires req.pc.Stored? && input.Go? && input.ok
    ensures NextReq(t, req, input).pc ==
            Done(Tokens(Jwt(req.cfg.secret, req.pc.access), Jwt(req.cfg.secret, req.pc.refresh)))
    ensures NextTables(t, req, input) == t
  {
  }

  lemma AnswersDeliver(s: State, r: nat)
    requires Inv(s) && r in s.reqs && s.reqs[r].req.pc.Done? && s.reqs[r].req.pc.outcome.Tokens?
    ensures s.reqs[r].req.pc.outcome.refresh in s.delivered && s.reqs[r].req.pc.outcome.access in s.delivered
  {
    AtRequest(s, r) by { Parts(s); }
    hide Inv, FlightOk, ScriptOk;
  }

  /** At any built server a registration of a free name can go through at once, and then its
      refresh token works, as long as the lifetime is in range; and so does its access
      token. */
  lemma RegistrationWorks(s: State, server: nat, n: string, p: string) returns (t: State, token: Token, access: Token)
    requires Reachable(s) && Built(s, server) && n != "" && |p| >= 8 && n !in s.db.names
    requires 0 < ServerConfig(s, server).refreshTtl && s.clock + ServerConfig(s, server).refreshTtl < TWO_63
    ensures Leads(s, t) && Works(t, server, token)
    ensures access in t.delivered && access.Jwt?
    ensures s.clock + ServerConfig(s, server).accessTtl < TWO_64 ==>
              Extract(access, ServerConfig(t, server), t.clock) == Ok(access.claims)
  {
    var cfg, now := ServerConfig(s, server), s.clock;
    var s0, r := Arrives(s, server, Register(n, p));
    hide Inv, Reachable, Leads, ServerConfig, Built, ClaimExpiry, RowExpiry, AsI64, Works, At;
    var s1, user := Creates(s0, r, server, cfg, now, n, p);
    var s2, c := Issues(s1, r, server, cfg, now, user);
    t := Delivers(s2, r, server, cfg, now, c);
    token, access := Jwt(cfg.secret, c), Jwt(cfg.secret, s2.reqs[r].req.pc.access);
    AccessYet(t, r, server, cfg, now, access.claims);
    WorksYet(t, r, server, cfg, now, c);
    LeadsOn(s, s0, s1);
    LeadsOn(s, s1, s2);
    LeadsOn(s, s2, t);
  }

  lemma AccessYet(s: State, r: nat, server: nat, cfg: Config, now: u64, c: Claims)
    requires At(s, r, server, cfg, now) && c.exp == ClaimExpiry(now, cfg.accessTtl) && c.kind == Access
    ensures now + cfg.accessTtl < TWO_64 ==>
              Built(s, server) && s.clock == now && Extract(Jwt(cfg.secret, c), ServerConfig(s, server), now) == Ok(c)
  {
    hide Inv;
  }

  lemma WorksYet(s: State, r: nat, server: nat, cfg: Config, now: u64, c: Claims)
    requires At(s, r, server, cfg, now) && 0 < cfg.refreshTtl && now + cfg.refreshTtl < TWO_63
    requires c.exp == ClaimExpiry(now, cfg.refreshTtl) && c.kind == TokenKind.Refresh && Jwt(cfg.secret, c) in s.delivered
    requires c.jti in s.db.tokens && s.db.tokens[c.jti].expiresAt == RowExpiry(now, cfg.refreshTtl)
    ensures Works(s, server, Jwt(cfg.secret, c))
  {
    LifetimesOrdered(now, now, cfg.refreshTtl);
    LifetimesAgree(now, cfg.refreshTtl);
    hide Inv, ClaimExpiry, RowExpiry, AsI64;
  }

  lemma Arrives(s: State, server: nat, call: Call) returns (t: State, r: nat)
    requires Reachable(s) && Built(s, server) && call.Register?
    ensures Leads(s, t) && At(t, r, server, ServerConfig(s, server), s.clock)
    ensures t.reqs[r].req == Req(ServerConfig(s, server), call, Start, []) && t.db == s.db
  {
    ReachableInv(s);
    var acts: seq<Action>;
    acts, r := Begins(s, [], server, call);
    t := Run(s, acts);
    RunKeepsInv(s, acts);
    hide Inv, Grows;
  }

  /** A server can start on a fresh database. */
  lemma ServerStarts(opts: Options, secret: string) returns (t: State)
    ensures Leads(INITIAL, t) && Built(t, 0) && ServerConfig(t, 0) == ConfigOf(opts, secret)
    ensures t.db == EMPTY && t.clock == 0
  {
    var go := Boot(WriteOnce.Go(0, secret));
    var a := [] + [Launch(0, opts)];
    Extend(INITIAL, [], Launch(0, opts));
    Extend(INITIAL, a, go);
    Extend(INITIAL, a + [go], go);
    t := Run(INITIAL, a + [go] + [go]);
    assert Leads(INITIAL, t);
  }

  /** So not every run is serial: one server, one registration, and a refresh and a logout
      with its token are enough. */
  lemma SomeRunIsNotSerial() returns (acts: seq<Action>)
    ensures Valid(INITIAL, acts) && !IsSerial(Run(INITIAL, acts))
  {
    hide IsSerial, Works;
    var s := ServerStarts(Options(None, None, 0), "secret");
    var t, token, _ := RegistrationWorks(s, 0, "name", "password");
    LeadsOn(INITIAL, s, t);
    acts :| Valid(INITIAL, acts) && Run(INITIAL, acts) == t;
    var more := RaceIsNotSerial(t, 0, token);
    Joins(INITIAL, acts, more);
    acts := acts + more;
  }
}
