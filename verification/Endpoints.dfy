/** The handlers of src/auth/http.rs as they are written, run with nobody in between:
    each does to the database and answers what its step machine does. A handler can be
    dropped where it awaits a statement, before the statement has run or after; then it
    returns `None`. The inputs of its other steps are `Go`. */
module Endpoints {
  import opened AuthCore
  import opened AuthDb
  import opened Machine

  function End(outcome: Option<Outcome>): Pc {
    if outcome.Some? then Done(outcome.value) else Dropped
  }

  /** What the handler of `call` must have done by itself under the inputs `at`. */
  ghost predicate Behaves(before: Tables, cfg: Config, call: Call, at: seq<Input>, after: Tables, outcome: Option<Outcome>) {
    && SoloTables(before, Req(cfg, call, Start, []), at) == after
    && SoloReq(before, Req(cfg, call, Start, []), at).pc == End(outcome)
  }

  /** One step forward, and the rest. */
  lemma Forward(t: Tables, m: Req, todo: seq<Input>)
    requires todo != []
    ensures SoloReq(t, m, todo) == SoloReq(NextTables(t, m, todo[0]), NextReq(t, m, todo[0]), todo[1..])
    ensures SoloTables(t, m, todo) == SoloTables(NextTables(t, m, todo[0]), NextReq(t, m, todo[0]), todo[1..])
    ensures Finished(NextReq(t, m, todo[0]).pc) ==>
              && SoloReq(t, m, todo) == NextReq(t, m, todo[0])
              && SoloTables(t, m, todo) == NextTables(t, m, todo[0])
  {
    if Finished(NextReq(t, m, todo[0]).pc) {
      FinishedStays(NextTables(t, m, todo[0]), NextReq(t, m, todo[0]), todo[1..]);
    }
  }

  /** A step without a statement forward, and the rest. */
  lemma LocalForward(t: Tables, m: Req, todo: seq<Input>)
    requires todo != [] && todo[0].Go? && !Finished(m.pc) && Pending(m.pc).None?
    requires todo[0].ok || Failure(m.pc).None?
    ensures var next := m.(pc := Local(m, todo[0].now, todo[0].seed));
            SoloReq(t, m, todo) == SoloReq(t, next, todo[1..]) && SoloTables(t, m, todo) == SoloTables(t, next, todo[1..])
  {
  }

  /** Issuing the pair and binding the clock readings of its row, four steps. */
  lemma PairIsBound(t: Tables, req: Req, at: seq<Input>, user: User, access: Claims, refresh: Claims)
    requires |at| == 6 && at[0].Go? && at[1].Go? && at[2].Go? && at[3].Go? && at[0].ok && at[1].ok
    requires req.pc == Identified(user)
    requires access == Issue(user.id, user.username, at[0].now, req.cfg.accessTtl, at[0].seed, Access)
    requires refresh == Issue(user.id, user.username, at[1].now, req.cfg.refreshTtl, at[1].seed, TokenKind.Refresh)
    ensures var m := req.(pc := Storing(user, access, refresh, RowExpiry(at[2].now, req.cfg.refreshTtl), AsI64(at[3].now)));
            SoloReq(t, req, at) == SoloReq(t, m, at[4..]) && SoloTables(t, req, at) == SoloTables(t, m, at[4..])
  {
    hide SoloReq, SoloTables, Enter, Issue, RowExpiry, AsI64;
    LocalForward(t, req, at);
    LocalForward(t, req.(pc := HasAccess(user, access)), at[1..]);
    assert at[1..][1..] == at[2..] && at[2..][1..] == at[3..] && at[3..][1..] == at[4..];
    LocalForward(t, req.(pc := HasPair(user, access, refresh)), at[2..]);
    LocalForward(t, req.(pc := Expiring(user, access, refresh, RowExpiry(at[2].now, req.cfg.refreshTtl))), at[3..]);
  }

  /** From an identified user to the token response, six steps. */
  method IssueAndStore(db: Db, cfg: Config, user: User, at: seq<Input>, ghost req: Req) returns (r: Option<Outcome>)
    requires |at| == 6 && forall i :: 1 <= i < 4 ==> at[i].Go?
    requires req.cfg == cfg && req.pc == Identified(user)
    modifies db`refreshTokens
    ensures SoloTables(old(db.View()), req, at) == db.View()
    ensures SoloReq(old(db.View()), req, at).pc == End(r)
  {
    if at[0].Cancel? {
      Forward(db.View(), req, at);
      return None;
    }
    if !at[0].ok {
      Forward(db.View(), req, at);
      return Some(Rejected(EncodeFailed));
    }
    var access := Issue(user.id, user.username, at[0].now, cfg.accessTtl, at[0].seed, Access);
    if !at[1].ok {
      LocalForward(db.View(), req, at);
      Forward(db.View(), req.(pc := HasAccess(user, access)), at[1..]);
      return Some(Rejected(EncodeFailed));
    }
    var refresh := Issue(user.id, user.username, at[1].now, cfg.refreshTtl, at[1].seed, TokenKind.Refresh);
    PairIsBound(db.View(), req, at, user, access, refresh);
    ghost var m := req.(pc := Storing(user, access, refresh, RowExpiry(at[2].now, cfg.refreshTtl), AsI64(at[3].now)));
    r := StoreAndAnswer(db, cfg, user, access, refresh, at, m);
  }

  method StoreAndAnswer(db: Db, cfg: Config, user: User, access: Claims, refresh: Claims, at: seq<Input>, ghost m: Req)
    returns (r: Option<Outcome>)
    requires |at| == 6 && at[2].Go? && at[3].Go?
    requires m.cfg == cfg
    requires m.pc == Storing(user, access, refresh, RowExpiry(at[2].now, cfg.refreshTtl), AsI64(at[3].now))
    modifies db`refreshTokens
    ensures SoloTables(old(db.View()), m, at[4..]) == db.View()
    ensures SoloReq(old(db.View()), m, at[4..]).pc == End(r)
  {
    ghost var next := NextReq(db.View(), m, at[4]);
    Forward(db.View(), m, at[4..]);
    if at[4].Cancel? {
      return None;
    }
    var stored := db.StoreRefreshToken(refresh.jti, user.id, cfg.refreshTtl, at[2].now, at[3].now, at[4].ok);
    if stored.Err? {
      return Some(Rejected(Database));
    }
    assert at[4..][1..] == at[5..];
    Forward(db.View(), next, at[5..]);
    if at[5].Cancel? {
      return None;
    }
    r := Some(Tokens(Jwt(cfg.secret, access), Jwt(cfg.secret, refresh)));
  }

  /** What a registration does before its INSERT, three steps. */
  lemma CreateIsBound(t: Tables, req: Req, at: seq<Input>)
    requires |at| == 10 && forall i :: 0 <= i < 3 ==> at[i].Go?
    requires req.call.Register? && req.pc == Start
    ensures var entered := Enter(req.cfg, req.call, at[0].now);
            if entered.Done? then SoloReq(t, req, at).pc == entered && SoloTables(t, req, at) == t
            else if !at[1].ok then
              SoloReq(t, req, at).pc == Done(Rejected(PasswordHashFailed)) && SoloTables(t, req, at) == t
            else
              var user := User(at[2].seed, req.call.username, Hash(req.call.password, at[1].seed));
              var m := req.(pc := Creating(user, AsI64(at[2].now)));
              SoloReq(t, req, at) == SoloReq(t, m, at[3..]) && SoloTables(t, req, at) == SoloTables(t, m, at[3..])
  {
    hide SoloReq, SoloTables;
    Forward(t, req, at);
    var m := NextReq(t, req, at[0]);
    if m.pc.Hashing? {
      Forward(t, m, at[1..]);
      if at[1].ok {
        LocalForward(t, NextReq(t, m, at[1]), at[2..]);
        assert at[2..] == at[1..][1..] && at[3..] == at[2..][1..];
      }
    }
  }

  method Register(db: Db, cfg: Config, username: string, password: string, at: seq<Input>) returns (r: Option<Outcome>)
    requires |at| == 10 && forall i :: 0 <= i < 8 && i !in {3, 4} ==> at[i].Go?
    modifies db`users, db`names, db`refreshTokens
    ensures Behaves(old(db.View()), cfg, Call.Register(username, password), at, db.View(), r)
  {
    hide SoloReq, SoloTables;
    ghost var m := Req(cfg, Call.Register(username, password), Start, []);
    CreateIsBound(db.View(), m, at);
    if username == "" {
      return Some(Rejected(EmptyUsername));
    }
    if |password| < 8 {
      return Some(Rejected(WeakPassword));
    }
    if !at[1].ok {
      return Some(Rejected(PasswordHashFailed));
    }
    var hash := Hash(password, at[1].seed);
    m := m.(pc := Creating(User(at[2].seed, username, hash), AsI64(at[2].now)));
    Forward(db.View(), m, at[3..]);
    if at[3].Cancel? {
      return None;
    }
    m := NextReq(db.View(), m, at[3]);
    var created := db.CreateUser(username, hash, at[2].seed, at[2].now, at[3].ok);
    if created.Err? {
      return Some(Rejected(created.error));
    }
    assert at[4..] == at[3..][1..];
    r := IssueAndStore(db, cfg, created.value, at[4..], m);
  }

  method Login(db: Db, cfg: Config, username: string, password: string, at: seq<Input>) returns (r: Option<Outcome>)
    requires |at| == 8 && forall i :: 0 <= i < 6 && i !in {1, 2} ==> at[i].Go?
    modifies db`refreshTokens
    ensures Behaves(old(db.View()), cfg, Call.Login(username, password), at, db.View(), r)
  {
    ghost var t, m := db.View(), Req(cfg, Call.Login(username, password), Start, []);
    Forward(t, m, at);
    m := NextReq(t, m, at[0]);
    Forward(t, m, at[1..]);
    if at[1].Cancel? {
      return None;
    }
    var found := db.FindUserByUsername(username, at[1].ok);
    if found.Err? {
      return Some(Rejected(Database));
    }
    if found.value.None? {
      return Some(Rejected(InvalidCredentials));
    }
    var user := found.value.value;
    if user.passwordHash.password != password {
      return Some(Rejected(InvalidCredentials));
    }
    m := NextReq(t, m, at[1]);
    assert at[2..] == at[1..][1..];
    r := IssueAndStore(db, cfg, user, at[2..], m);
  }

  /** Verifying and binding the clock reading of the consume, two steps. */
  lemma ConsumeIsBound(t: Tables, req: Req, at: seq<Input>)
    requires |at| == 10 && forall i :: 0 <= i < 2 ==> at[i].Go?
    requires req.call.Refresh? && req.pc == Start
    ensures var verified := VerifyKind(req.call.token, req.cfg, at[0].now, TokenKind.Refresh);
            if verified.Err? then
              SoloReq(t, req, at).pc == Done(Rejected(verified.error)) && SoloTables(t, req, at) == t
            else
              var m := req.(pc := Consuming(verified.value, AsI64(at[1].now)));
              SoloReq(t, req, at) == SoloReq(t, m, at[2..]) && SoloTables(t, req, at) == SoloTables(t, m, at[2..])
  {
    hide SoloReq, SoloTables;
    Forward(t, req, at);
    Forward(t, NextReq(t, req, at[0]), at[1..]);
    assert at[2..] == at[1..][1..];
  }

  /** From a consumed token to the response, seven steps. */
  method ResolveAndIssue(db: Db, cfg: Config, claims: Claims, at: seq<Input>, ghost m: Req) returns (r: Option<Outcome>)
    requires |at| == 7 && forall i :: 2 <= i < 5 ==> at[i].Go?
    requires m.cfg == cfg && m.pc == Resolving(claims)
    modifies db`refreshTokens
    ensures SoloTables(old(db.View()), m, at) == db.View()
    ensures SoloReq(old(db.View()), m, at).pc == End(r)
  {
    hide SoloReq, SoloTables;
    Forward(db.View(), m, at);
    if at[0].Cancel? {
      return None;
    }
    var found := db.FindUserById(claims.sub, at[0].ok);
    if found.Err? {
      return Some(Rejected(Database));
    }
    if found.value.None? {
      return Some(Rejected(UserNotFound));
    }
    r := IssueAndStore(db, cfg, found.value.value, at[1..], NextReq(db.View(), m, at[0]));
  }

  method Refresh(db: Db, cfg: Config, token: Token, at: seq<Input>) returns (r: Option<Outcome>)
    requires |at| == 10 && forall i :: 0 <= i < 8 && i !in {2, 3, 4} ==> at[i].Go?
    modifies db`refreshTokens
    ensures Behaves(old(db.View()), cfg, Call.Refresh(token), at, db.View(), r)
  {
    hide SoloReq, SoloTables;
    ghost var m := Req(cfg, Call.Refresh(token), Start, []);
    ConsumeIsBound(db.View(), m, at);
    var verified := VerifyToken(token, cfg, at[0].now);
    if verified.Err? {
      return Some(Rejected(verified.error));
    }
    var claims := verified.value;
    if claims.kind != TokenKind.Refresh {
      return Some(Rejected(WrongKind));
    }
    hide VerifyKind, VerifyToken, Enter, Local;
    m := m.(pc := Consuming(claims, AsI64(at[1].now)));
    Forward(db.View(), m, at[2..]);
    if at[2].Cancel? {
      return None;
    }
    ghost var next := NextReq(db.View(), m, at[2]);
    var consumed := db.ConsumeRefreshToken(claims.jti, at[1].now, at[2].ok);
    if consumed.Err? {
      return Some(Rejected(Database));
    }
    if !consumed.value {
      return Some(Rejected(InvalidRefreshToken));
    }
    assert at[3..] == at[2..][1..];
    r := ResolveAndIssue(db, cfg, claims, at[3..], next);
  }

  /** The delete of a logout, two steps. */
  lemma DeleteIsBound(t: Tables, req: Req, at: seq<Input>)
    requires |at| == 2 && req.pc.Revoking?
    ensures SoloReq(t, req, at).pc ==
            (if at[0].Cancel? then Dropped
             else if !at[0].ok then Done(Rejected(Database))
             else if at[1].Cancel? then Dropped
             else Done(LoggedOut))
    ensures SoloTables(t, req, at) ==
            if at[0].Go? && at[0].ok then Effect(t, DeleteTokensOf(req.pc.claims.sub)) else t
  {
    hide SoloReq, SoloTables, Effect, Answer, Enter;
    Forward(t, req, at);
    if at[0].Go? && at[0].ok {
      Forward(NextTables(t, req, at[0]), NextReq(t, req, at[0]), at[1..]);
    }
  }

  /** A logout, three steps. */
  lemma RevokeIsBound(t: Tables, req: Req, at: seq<Input>)
    requires |at| == 3 && at[0].Go?
    requires req.call.Logout? && req.pc == Start
    ensures var verified := VerifyKind(req.call.token, req.cfg, at[0].now, TokenKind.Refresh);
            && SoloReq(t, req, at).pc ==
               (if verified.Err? then Done(Rejected(verified.error))
                else if at[1].Cancel? then Dropped
                else if !at[1].ok then Done(Rejected(Database))
                else if at[2].Cancel? then Dropped
                else Done(LoggedOut))
            && SoloTables(t, req, at) ==
               if verified.Ok? && at[1].Go? && at[1].ok then Effect(t, DeleteTokensOf(verified.value.sub)) else t
  {
    hide SoloReq, SoloTables, VerifyKind, Effect, Answer;
    Forward(t, req, at);
    var m := NextReq(t, req, at[0]);
    if m.pc.Revoking? {
      DeleteIsBound(t, m, at[1..]);
    }
  }

  method Logout(db: Db, cfg: Config, token: Token, at: seq<Input>) returns (r: Option<Outcome>)
    requires |at| == 3 && at[0].Go?
    modifies db`refreshTokens
    ensures Behaves(old(db.View()), cfg, Call.Logout(token), at, db.View(), r)
  {
    hide SoloReq, SoloTables;
    RevokeIsBound(db.View(), Req(cfg, Call.Logout(token), Start, []), at);
    var verified := VerifyToken(token, cfg, at[0].now);
    if verified.Err? {
      return Some(Rejected(verified.error));
    }
    if verified.value.kind != TokenKind.Refresh {
      return Some(Rejected(WrongKind));
    }
    if at[1].Cancel? {
      return None;
    }
    var deleted := db.DeleteRefreshTokensForUser(verified.value.sub, at[1].ok);
    if deleted.Err? {
      return Some(Rejected(Database));
    }
    if at[2].Cancel? {
      return None;
    }
    r := Some(LoggedOut);
  }
}
