/** The handlers of src/auth/http.rs as step machines. A step ends where another
    request may come in between: at every statement, and at every clock reading that a
    later statement is bound to. */
module Machine {
  import opened AuthCore
  import opened AuthDb

  datatype Call =
    | Register(username: string, password: string)
    | Login(username: string, password: string)
    | Refresh(token: Token)
    | Logout(token: Token)

  datatype Outcome = Tokens(access: Token, refresh: Token) | LoggedOut | Rejected(error: Error)

  datatype Pc =
    | Start
    | Hashing
    | Hashed(hash: Hash)
    | Creating(user: User, createdAt: i64)            // before INSERT INTO users
    | Finding(username: string, password: string)     // before SELECT by username
    | Verified(claims: Claims)
    | Consuming(claims: Claims, now: i64)             // before the consuming DELETE
    | Resolving(claims: Claims)                       // before SELECT by id
    | Identified(user: User)
    | HasAccess(user: User, access: Claims)
    | HasPair(user: User, access: Claims, refresh: Claims)
    | Expiring(user: User, access: Claims, refresh: Claims, expiresAt: i64)
    | Storing(user: User, access: Claims, refresh: Claims, expiresAt: i64, createdAt: i64)  // before INSERT
    | Stored(access: Claims, refresh: Claims)
    | Revoking(claims: Claims)                        // before DELETE by user
    | Revoked
    | Done(outcome: Outcome)
    | Dropped

  /** A request, with the statements the database has run for it. */
  datatype Req = Req(cfg: Config, call: Call, pc: Pc, ran: seq<Stmt>)

  /** `Go` gives a step a clock reading and a fresh id or salt; with `ok` false the
      foreign call of the step (database, hashing, encoding) fails, if it has one.
      `Cancel` drops the request. */
  datatype Input = Go(now: u64, seed: string, ok: bool) | Cancel

  /** How far a handler has come; 12 is finished. */
  function Stage(pc: Pc): nat {
    match pc
    case Start => 0
    case Hashing => 1
    case Verified(_) => 1
    case Hashed(_) => 2
    case Consuming(_, _) => 2
    case Creating(_, _) => 3
    case Finding(_, _) => 3
    case Revoking(_) => 3
    case Resolving(_) => 4
    case Identified(_) => 5
    case HasAccess(_, _) => 6
    case HasPair(_, _, _) => 7
    case Expiring(_, _, _, _) => 8
    case Storing(_, _, _, _, _) => 9
    case Stored(_, _) => 10
    case Revoked => 11
    case Done(_) => 12
    case Dropped => 12
  }

  predicate Finished(pc: Pc) {
    pc.Done? || pc.Dropped?
  }

  /** Past the check, insert or consume that opens the session, before its store. */
  predicate InWindow(pc: Pc) {
    4 <= Stage(pc) <= 9
  }

  /** The user such a request is about to store a token for. */
  function WindowUser(pc: Pc): Uuid
    requires InWindow(pc)
  {
    if pc.Resolving? then pc.claims.sub else pc.user.id
  }

  /** The statement a request is waiting for. */
  function Pending(pc: Pc): Option<Stmt> {
    match pc
    case Creating(user, createdAt) => Some(InsertUser(user.id, user.username, user.passwordHash, createdAt))
    case Finding(username, _) => Some(SelectByName(username))
    case Consuming(claims, now) => Some(DeleteToken(claims.jti, now))
    case Resolving(claims) => Some(SelectById(claims.sub))
    case Storing(user, _, refresh, expiresAt, createdAt) => Some(InsertToken(refresh.jti, user.id, expiresAt, createdAt))
    case Revoking(claims) => Some(DeleteTokensOf(claims.sub))
    case _ => None
  }

  /** The step taken on a statement's reply. */
  function Resume(pc: Pc, reply: Reply): Pc
    requires Pending(pc).Some?
  {
    match pc
    case Creating(user, _) => if reply.Inserted? then Identified(user) else Done(Rejected(AlreadyExists))
    case Finding(_, password) =>
      if reply.Found? && reply.user.passwordHash.password == password then Identified(reply.user)
      else Done(Rejected(InvalidCredentials))
    case Consuming(claims, _) =>
      if reply == Affected(1) then Resolving(claims) else Done(Rejected(InvalidRefreshToken))
    case Resolving(_) => if reply.Found? then Identified(reply.user) else Done(Rejected(UserNotFound))
    case Storing(_, access, refresh, _, _) =>
      if reply.Inserted? then Stored(access, refresh) else Done(Rejected(Database))
    case Revoking(_) => Revoked
  }

  /** The first step: everything a handler does before its first await. */
  function Enter(cfg: Config, call: Call, now: u64): Pc {
    match call
    case Register(username, password) =>
      if username == "" then Done(Rejected(EmptyUsername))
      else if |password| < 8 then Done(Rejected(WeakPassword))
      else Hashing
    case Login(username, password) => Finding(username, password)
    case Refresh(token) =>
      (match VerifyKind(token, cfg, now, TokenKind.Refresh)
       case Err(e) => Done(Rejected(e))
       case Ok(claims) => Verified(claims))
    case Logout(token) =>
      (match VerifyKind(token, cfg, now, TokenKind.Refresh)
       case Err(e) => Done(Rejected(e))
       case Ok(claims) => Revoking(claims))
  }

  /** A step without a statement. */
  function Local(req: Req, now: u64, seed: string): Pc {
    match req.pc
    case Start => Enter(req.cfg, req.call, now)
    case Hashing => if req.call.Register? then Hashed(Hash(req.call.password, seed)) else req.pc
    case Hashed(hash) =>
      if req.call.Register? then Creating(User(seed, req.call.username, hash), AsI64(now)) else req.pc
    case Verified(claims) => Consuming(claims, AsI64(now))
    case Identified(user) =>
      HasAccess(user, Issue(user.id, user.username, now, req.cfg.accessTtl, seed, Access))
    case HasAccess(user, access) =>
      HasPair(user, access, Issue(user.id, user.username, now, req.cfg.refreshTtl, seed, TokenKind.Refresh))
    case HasPair(user, access, refresh) => Expiring(user, access, refresh, RowExpiry(now, req.cfg.refreshTtl))
    case Expiring(user, access, refresh, expiresAt) => Storing(user, access, refresh, expiresAt, AsI64(now))
    case Stored(access, refresh) => Done(Tokens(Jwt(req.cfg.secret, access), Jwt(req.cfg.secret, refresh)))
    case Revoked => Done(LoggedOut)
    case _ => req.pc
  }

  /** The error of a step whose foreign call fails. */
  function Failure(pc: Pc): Option<Error> {
    if Pending(pc).Some? then Some(Database)
    else if pc.Hashing? then Some(PasswordHashFailed)
    else if pc.Identified? || pc.HasAccess? then Some(EncodeFailed)
    else None
  }

  /** The step runs a statement. */
  predicate Executes(pc: Pc, input: Input) {
    input.Go? && input.ok && Pending(pc).Some?
  }

  function NextReq(t: Tables, req: Req, input: Input): Req {
    if Finished(req.pc) then req
    else if input.Cancel? then req.(pc := Dropped)
    else if !input.ok && Failure(req.pc).Some? then req.(pc := Done(Rejected(Failure(req.pc).value)))
    else match Pending(req.pc)
      case Some(x) => req.(pc := Resume(req.pc, Answer(t, x)), ran := req.ran + [x])
      case None => req.(pc := Local(req, input.now, input.seed))
  }

  function NextTables(t: Tables, req: Req, input: Input): Tables {
    if Executes(req.pc, input) then Effect(t, Pending(req.pc).value) else t
  }

  /** A request alone on the database. */
  function SoloReq(t: Tables, req: Req, script: seq<Input>): Req
    decreases |script|
  {
    if script == [] then req
    else SoloReq(NextTables(t, req, script[0]), NextReq(t, req, script[0]), script[1..])
  }

  function SoloTables(t: Tables, req: Req, script: seq<Input>): Tables
    decreases |script|
  {
    if script == [] then t
    else SoloTables(NextTables(t, req, script[0]), NextReq(t, req, script[0]), script[1..])
  }

  lemma {:induction false} SoloSplits(t: Tables, req: Req, a: seq<Input>, b: seq<Input>)
    ensures SoloReq(t, req, a + b) == SoloReq(SoloTables(t, req, a), SoloReq(t, req, a), b)
    ensures SoloTables(t, req, a + b) == SoloTables(SoloTables(t, req, a), SoloReq(t, req, a), b)
    decreases |a|
  {
    if a == [] {
      assert a + b == b;
    } else {
      assert (a + b)[1..] == a[1..] + b;
      SoloSplits(NextTables(t, req, a[0]), NextReq(t, req, a[0]), a[1..], b);
    }
  }

  lemma {:induction false} SoloExtends(t: Tables, req: Req, script: seq<Input>, input: Input)
    ensures SoloReq(t, req, script + [input]) == NextReq(SoloTables(t, req, script), SoloReq(t, req, script), input)
    ensures SoloTables(t, req, script + [input]) == NextTables(SoloTables(t, req, script), SoloReq(t, req, script), input)
  {
    SoloSplits(t, req, script, [input]);
    assert [input][1..] == [];
  }

  lemma {:induction false} FinishedStays(t: Tables, req: Req, script: seq<Input>)
    requires Finished(req.pc)
    ensures SoloReq(t, req, script) == req && SoloTables(t, req, script) == t
    decreases |script|
  {
    if script != [] {
      FinishedStays(t, req, script[1..]);
    }
  }

  /** The pc of a request of this kind of call. */
  ghost predicate Fits(req: Req) {
    (req.pc.Hashing? || req.pc.Hashed? || req.pc.Creating? ==> req.call.Register?)
  }

  /** Every step is progress: a handler finishes within twelve steps. */
  lemma StepsAreProgress(t: Tables, req: Req, input: Input)
    requires Fits(req) && !Finished(req.pc)
    ensures Fits(NextReq(t, req, input)) && Stage(req.pc) < Stage(NextReq(t, req, input).pc) <= 12
    ensures NextReq(t, req, input).cfg == req.cfg && NextReq(t, req, input).call == req.call
    ensures NextReq(t, req, input).ran == req.ran + if Executes(req.pc, input) then [Pending(req.pc).value] else []
  {
  }
}
