/** What every step of the protocol keeps. */
module Invariant {
  import opened AuthCore
  import opened AuthDb
  import opened Machine
  import opened Ledger
  import opened Protocol
  import WriteOnce

  // ---------------------------------History only grows----------------------------------

  /** A token's story is never rewritten; only a live token has anything left to happen. */
  ghost predicate Ages(a: Life, b: Life) {
    b == a.(fate := b.fate) && (a.fate.Live? || b.fate == a.fate)
  }

  ghost predicate Continues(f: Flight, g: Flight) {
    && g.req.cfg == f.req.cfg && g.req.call == f.req.call && g.after == f.after
    && Stage(f.req.pc) <= Stage(g.req.pc)
    && (Finished(f.req.pc) ==> g == f)
    && f.req.ran <= g.req.ran && f.script <= g.script
  }

  ghost predicate ReqsGrow(s: State, s': State) {
    forall r :: r in s.reqs ==> r in s'.reqs && Continues(s.reqs[r], s'.reqs[r])
  }

  ghost predicate LedgerGrows(s: State, s': State) {
    && (forall j :: j in s.ledger ==> j in s'.ledger && Ages(s.ledger[j], s'.ledger[j]))
    && (forall j :: j in s'.ledger && j !in s.ledger && s'.ledger[j].storedBy in s.reqs ==>
          Stage(s.reqs[s'.ledger[j].storedBy].req.pc) < 10)
    && (forall j :: j in s.ledger && s.ledger[j].fate.Live? && s'.ledger[j].fate.Spent? && s'.ledger[j].fate.req in s.reqs ==>
          Stage(s.reqs[s'.ledger[j].fate.req].req.pc) < 4)
  }

  ghost predicate Grows(s: State, s': State) {
    && s.clock <= s'.clock
    && (forall u :: u in s.db.users ==> u in s'.db.users && s'.db.users[u] == s.db.users[u])
    && (forall u :: u in s.creators ==> u in s'.creators && s'.creators[u] == s.creators[u])
    && WriteOnce.Keeps(s.boot, s'.boot)
    && (forall i :: i in s.issued ==> i in s'.issued && s'.issued[i] == s.issued[i])
    && (forall i :: i in s.servers ==> i in s'.servers && s'.servers[i] == s.servers[i])
    && s.ids <= s'.ids && s.delivered <= s'.delivered && s.log <= s'.log
    && ReqsGrow(s, s') && LedgerGrows(s, s')
  }

  lemma GrowsTransitive(s: State, s': State, s'': State)
    requires Grows(s, s') && Grows(s', s'')
    ensures Grows(s, s'')
  {
  }

  // ---------------------------------Requests----------------------------------

  /** No expiry of a token that `r` issues up to now leaves the signed 64-bit range. */
  ghost predicate InRange(s: State, r: nat)
    requires r in s.reqs
  {
    s.clock + s.reqs[r].req.cfg.refreshTtl < TWO_63
  }

  /** The token `c` was presented, and is one of the server's refresh tokens. */
  ghost predicate Signed(req: Req, c: Claims) {
    (req.call.Refresh? || req.call.Logout?) && req.call.token == Jwt(req.cfg.secret, c) && c.kind == TokenKind.Refresh
  }

  ghost predicate IsUser(s: State, user: User) {
    user.id in s.db.users && user == UserOf(s.db, user.id)
  }

  /** Request `r` was entitled to a session of user `u`: it registered `u`, or gave
      `u`'s name and password, or consumed a refresh token of `u`. */
  ghost predicate Vouched(s: State, r: nat, u: Uuid)
    requires r in s.reqs
  {
    && u in s.db.users
    && match s.reqs[r].req.call
       case Register(n, p) =>
         s.db.users[u].username == n && s.db.users[u].passwordHash.password == p && u in s.creators && s.creators[u] == r
       case Login(n, p) => s.db.users[u].username == n && s.db.users[u].passwordHash.password == p
       case Refresh(token) =>
         && token.Jwt? && token.claims.jti in s.ledger
         && s.ledger[token.claims.jti].fate == Spent(r) && s.ledger[token.claims.jti].row.userId == u
       case Logout(_) => false
  }

  ghost predicate Minted(s: State, r: nat, c: Claims, u: Uuid, kind: TokenKind) {
    c.jti in s.issued && s.issued[c.jti] == Mint(c, r) && c.sub == u && c.kind == kind
  }

  ghost predicate StoredAs(s: State, r: nat, jti: Uuid) {
    jti in s.ledger && s.ledger[jti].storedBy == r
  }

  ghost predicate PairOk(s: State, r: nat, u: Uuid, access: Claims, refresh: Claims) {
    Minted(s, r, access, u, Access) && Minted(s, r, refresh, u, TokenKind.Refresh)
  }

  /** A rejected refresh was a replay, or too late. */
  ghost predicate Refused(s: State, r: nat)
    requires r in s.reqs
  {
    var req := s.reqs[r].req;
    && req.call.Refresh? && req.call.token.Jwt? && Signed(req, req.call.token.claims) && req.call.token.claims.jti in s.ledger
    && |req.ran| > 0 && req.ran[0].DeleteToken?
    && var life := s.ledger[req.call.token.claims.jti];
       life.fate != Spent(r) && (life.fate.Live? ==> life.row.expiresAt <= req.ran[0].now)
  }

  ghost predicate PcOk(s: State, r: nat)
    requires r in s.reqs
  {
    var req := s.reqs[r].req;
    match req.pc
    case Start => true
    case Hashing => req.call.Register?
    case Hashed(hash) => req.call.Register? && hash.password == req.call.password
    case Creating(user, _) =>
      && req.call.Register? && user.id in s.ids && user.username == req.call.username
      && user.passwordHash.password == req.call.password
    case Finding(username, password) => req.call == Login(username, password)
    case Verified(c) => req.call.Refresh? && Signed(req, c)
    case Consuming(c, _) => req.call.Refresh? && Signed(req, c)
    case Resolving(c) => req.call.Refresh? && Signed(req, c) && Vouched(s, r, c.sub)
    case Identified(user) => IsUser(s, user) && Vouched(s, r, user.id)
    case HasAccess(user, a) => IsUser(s, user) && Vouched(s, r, user.id) && Minted(s, r, a, user.id, Access)
    case HasPair(user, a, f) => IsUser(s, user) && Vouched(s, r, user.id) && PairOk(s, r, user.id, a, f)
    case Expiring(user, a, f, e) =>
      && IsUser(s, user) && Vouched(s, r, user.id) && PairOk(s, r, user.id, a, f)
      && (InRange(s, r) ==> f.exp <= e <= s.clock + req.cfg.refreshTtl)
    case Storing(user, a, f, e, c) =>
      && IsUser(s, user) && Vouched(s, r, user.id) && PairOk(s, r, user.id, a, f)
      && (InRange(s, r) ==> f.exp <= e <= c + req.cfg.refreshTtl)
    case Stored(a, f) => PairOk(s, r, a.sub, a, f) && StoredAs(s, r, f.jti)
    case Revoking(c) => req.call.Logout? && Signed(req, c)
    case Revoked => req.call.Logout?
    case Done(Tokens(access, refresh)) =>
      && access.Jwt? && refresh.Jwt? && access.secret == req.cfg.secret && refresh.secret == req.cfg.secret
      && PairOk(s, r, access.claims.sub, access.claims, refresh.claims) && StoredAs(s, r, refresh.claims.jti)
      && access in s.delivered && refresh in s.delivered
    case Done(LoggedOut) => req.call.Logout?
    case Done(Rejected(e)) => e != UserNotFound && (e == InvalidRefreshToken ==> Refused(s, r))
    case Dropped => true
  }

  /** The inputs a refresh has had against where it stands. */
  ghost predicate VerifiedIn(f: Flight) {
    && f.req.call.Refresh? && f.req.call.token.Jwt? && |f.script| > 0 && f.script[0].Go?
    && VerifyKind(f.req.call.token, f.req.cfg, f.script[0].now, TokenKind.Refresh) == Ok(f.req.call.token.claims)
  }

  ghost predicate BoundIn(f: Flight)
    requires f.req.call.Refresh? && f.req.call.token.Jwt?
  {
    |f.script| > 1 && f.script[1].Go? &&
    match f.req.pc
    case Consuming(_, now) => now == AsI64(f.script[1].now)
    case _ => f.req.ran != [] ==> f.req.ran[0] == DeleteToken(f.req.call.token.claims.jti, AsI64(f.script[1].now))
  }

  ghost predicate ScriptOk(f: Flight) {
    var pc := f.req.pc;
    && (pc.Start? ==> f.script == [])
    && (Stage(pc) <= 3 ==> f.req.ran == [])
    && (f.req.call.Refresh? ==>
          && (pc.Verified? ==> VerifiedIn(f) && |f.script| == 1)
          && (pc.Consuming? || f.req.ran != [] ==> VerifiedIn(f) && BoundIn(f))
          && ((pc.Done? && pc.outcome.Tokens?) || InWindow(pc) || pc.Stored? ==> f.req.ran != [])
          && (pc.Done? && pc.outcome.Rejected? ==>
                pc.outcome.error in {TokenExpired, TokenInvalid, WrongKind, InvalidRefreshToken, UserNotFound, Database, EncodeFailed})
          && (pc == Done(Rejected(TokenExpired)) ==>
                && |f.script| > 0 && f.script[0].Go?
                && VerifyToken(f.req.call.token, f.req.cfg, f.script[0].now) == Err(TokenExpired))
          && (pc == Done(Rejected(TokenInvalid)) ==> f.req.call.token.Malformed? || f.req.call.token.secret != f.req.cfg.secret)
          && (pc == Done(Rejected(WrongKind)) ==> f.req.call.token.Jwt? && f.req.call.token.claims.kind != TokenKind.Refresh))
  }

  ghost predicate FlightOk(s: State, r: nat)
    requires r in s.reqs
  {
    var req := s.reqs[r].req;
    && SIGNING_SECRET in s.boot.rows && req.cfg.secret == s.boot.rows[SIGNING_SECRET]
    && CanPresent(s, req.cfg.secret, req.call)
    && (forall q :: q in s.reqs[r].after ==> q in s.reqs && Finished(s.reqs[q].req.pc))
    && ScriptOk(s.reqs[r]) && PcOk(s, r)
  }

  // ---------------------------------Tokens----------------------------------

  ghost predicate MintOk(s: State, i: Uuid)
    requires i in s.issued
  {
    var c, r := s.issued[i].claims, s.issued[i].req;
    && c.jti == i && i in s.ids
    && r in s.reqs && Stage(s.reqs[r].req.pc) >= 6 && Vouched(s, r, c.sub)
    && c.username == s.db.users[c.sub].username
    && c.iat <= s.clock
    && c.exp == ClaimExpiry(c.iat, if c.kind == Access then s.reqs[r].req.cfg.accessTtl else s.reqs[r].req.cfg.refreshTtl)
  }

  ghost predicate DeliveredOk(s: State, token: Token) {
    && SIGNING_SECRET in s.boot.rows
    && token.Jwt? && token.secret == s.boot.rows[SIGNING_SECRET]
    && token.claims.jti in s.issued && s.issued[token.claims.jti].claims == token.claims
    && (token.claims.kind == TokenKind.Refresh ==> token.claims.jti in s.ledger)
  }

  /** Where a stored token came from. */
  ghost predicate BirthOk(s: State, j: Uuid)
    requires j in s.ledger
  {
    var life := s.ledger[j];
    && life.storedBy in s.reqs && Stage(s.reqs[life.storedBy].req.pc) >= 10
    && j in s.issued && Minted(s, life.storedBy, s.issued[j].claims, life.row.userId, TokenKind.Refresh)
    && life.origin == OriginOf(s.reqs[life.storedBy].req.call)
    && life.root in s.ledger
    && (life.origin.SignIn? ==> life.root == j && life.depth == 0)
    && (life.origin.Rotated? ==>
          && life.origin.jti in s.ledger
          && var parent := s.ledger[life.origin.jti];
             && parent.fate == Spent(life.storedBy) && parent.row.userId == life.row.userId
             && life.root == parent.root && life.depth == parent.depth + 1)
    && (InRange(s, life.storedBy) ==>
          s.issued[j].claims.exp <= life.row.expiresAt <= life.row.createdAt + s.reqs[life.storedBy].req.cfg.refreshTtl)
  }

  /** How a spent token was spent. */
  ghost predicate FateOk(s: State, j: Uuid)
    requires j in s.ledger
  {
    var life := s.ledger[j];
    life.fate.Spent? ==>
      && life.fate.req in s.reqs
      && var req := s.reqs[life.fate.req].req;
         && Stage(req.pc) >= 4 && OriginOf(req.call) == Rotated(j)
         && |req.ran| > 0 && req.ran[0].DeleteToken? && req.ran[0].jti == j && req.ran[0].now < life.row.expiresAt
  }

  /** One request stores at most one token. */
  ghost predicate StoresOnce(s: State) {
    forall i, j :: i in s.ledger && j in s.ledger && s.ledger[i].storedBy == s.ledger[j].storedBy ==> i == j
  }

  /** Who registered a user, with what. */
  ghost predicate CreatorOk(s: State, u: Uuid)
    requires u in s.db.users
  {
    && u in s.ids && u in s.creators && s.creators[u] in s.reqs
    && var req := s.reqs[s.creators[u]].req;
       && Stage(req.pc) >= 5 && req.call.Register?
       && s.db.users[u].username == req.call.username && s.db.users[u].passwordHash.password == req.call.password
  }

  ghost predicate CreatorsOk(s: State) {
    && s.creators.Keys == s.db.users.Keys
    && (forall u {:trigger CreatorOk(s, u)} :: u in s.db.users ==> CreatorOk(s, u))
  }

  // ---------------------------------The invariant----------------------------------

  ghost predicate TablesOk(s: State) {
    && WellFormed(s.db) && Mirrors(s.ledger, s.db)
    && WriteOnce.Agreed(s.boot) && (forall i :: i in s.boot.calls ==> s.boot.calls[i].key == SIGNING_SECRET)
    && StoresOnce(s) && CreatorsOk(s) && s.issued.Keys <= s.ids
  }

  ghost predicate Flights(s: State) {
    forall r {:trigger FlightOk(s, r)} :: r in s.reqs ==> FlightOk(s, r)
  }

  ghost predicate Mints(s: State) {
    forall i {:trigger MintOk(s, i)} :: i in s.issued ==> MintOk(s, i)
  }

  ghost predicate Births(s: State) {
    forall j {:trigger BirthOk(s, j)} :: j in s.ledger ==> BirthOk(s, j)
  }

  ghost predicate Fates(s: State) {
    forall j {:trigger FateOk(s, j)} :: j in s.ledger ==> FateOk(s, j)
  }

  ghost predicate Deliveries(s: State) {
    forall token {:trigger DeliveredOk(s, token)} :: token in s.delivered ==> DeliveredOk(s, token)
  }

  ghost predicate Inv(s: State) {
    TablesOk(s) && Flights(s) && Mints(s) && Births(s) && Fates(s) && Deliveries(s)
  }

  lemma InitialInv()
    ensures Inv(INITIAL)
  {
  }

  // ---------------------------------Growth keeps what is old----------------------------------

  lemma InRangeBefore(s: State, s': State, r: nat)
    requires Grows(s, s') && r in s.reqs && r in s'.reqs && InRange(s', r)
    ensures InRange(s, r)
  {
    assert Continues(s.reqs[r], s'.reqs[r]);
  }

  lemma VouchedKept(s: State, s': State, r: nat, u: Uuid)
    requires Grows(s, s') && r in s.reqs && Vouched(s, r, u)
    ensures r in s'.reqs && Vouched(s', r, u)
  {
    assert Continues(s.reqs[r], s'.reqs[r]);
  }

  lemma PcKept(s: State, s': State, r: nat)
    requires Grows(s, s') && r in s.reqs && PcOk(s, r)
    requires r in s'.reqs && s'.reqs[r].req == s.reqs[r].req
    ensures PcOk(s', r)
  {
    var pc := s.reqs[r].req.pc;
    if InWindow(pc) {
      VouchedKept(s, s', r, WindowUser(pc));
    }
    if InRange(s', r) {
      InRangeBefore(s, s', r);
    }
  }

  lemma FlightKept(s: State, s': State, r: nat)
    requires Grows(s, s') && r in s.reqs && FlightOk(s, r)
    requires r in s'.reqs && s'.reqs[r] == s.reqs[r]
    ensures FlightOk(s', r)
  {
    PcKept(s, s', r);
    forall q | q in s.reqs[r].after
      ensures q in s'.reqs && Finished(s'.reqs[q].req.pc)
    {
      assert Continues(s.reqs[q], s'.reqs[q]);
    }
  }

  lemma MintKept(s: State, s': State, i: Uuid)
    requires Grows(s, s') && i in s.issued && MintOk(s, i)
    ensures i in s'.issued && MintOk(s', i)
  {
    var r := s.issued[i].req;
    assert Continues(s.reqs[r], s'.reqs[r]);
    VouchedKept(s, s', r, s.issued[i].claims.sub);
  }

  lemma BirthKept(s: State, s': State, j: Uuid)
    requires Grows(s, s') && j in s.ledger && BirthOk(s, j)
    ensures j in s'.ledger && BirthOk(s', j)
  {
    var life := s.ledger[j];
    assert Continues(s.reqs[life.storedBy], s'.reqs[life.storedBy]);
    assert Ages(life, s'.ledger[j]);
    assert life.root in s'.ledger;
    if life.origin.Rotated? {
      assert Ages(s.ledger[life.origin.jti], s'.ledger[life.origin.jti]);
    }
    if InRange(s', life.storedBy) {
      InRangeBefore(s, s', life.storedBy);
    }
  }

  lemma FateKept(s: State, s': State, j: Uuid)
    requires Grows(s, s') && j in s.ledger && FateOk(s, j)
    requires j in s'.ledger && s'.ledger[j].fate == s.ledger[j].fate
    ensures FateOk(s', j)
  {
    var life := s.ledger[j];
    assert Ages(life, s'.ledger[j]);
    if life.fate.Spent? {
      assert Continues(s.reqs[life.fate.req], s'.reqs[life.fate.req]);
    }
  }

  lemma CreatorKept(s: State, s': State, u: Uuid)
    requires Grows(s, s') && u in s.db.users && CreatorOk(s, u)
    ensures u in s'.db.users && CreatorOk(s', u)
  {
    assert Continues(s.reqs[s.creators[u]], s'.reqs[s.creators[u]]);
  }

  lemma DeliveredKept(s: State, s': State, token: Token)
    requires Grows(s, s') && DeliveredOk(s, token)
    ensures DeliveredOk(s', token)
  {
  }

  ghost predicate Inherited(s: State, s': State) {
    && (forall r {:trigger FlightOk(s', r)} :: r in s.reqs && r in s'.reqs && s'.reqs[r] == s.reqs[r] ==> FlightOk(s', r))
    && (forall i {:trigger MintOk(s', i)} :: i in s.issued && i in s'.issued ==> MintOk(s', i))
    && (forall j {:trigger BirthOk(s', j)} :: j in s.ledger && j in s'.ledger ==> BirthOk(s', j))
    && (forall j {:trigger FateOk(s', j)} :: j in s.ledger && j in s'.ledger && s'.ledger[j].fate == s.ledger[j].fate ==> FateOk(s', j))
    && (forall token {:trigger DeliveredOk(s', token)} :: token in s.delivered ==> DeliveredOk(s', token))
  }

  /** All that a step has to be checked for is what it touches. */
  lemma Inherit(s: State, s': State)
    requires Inv(s) && Grows(s, s')
    ensures Inherited(s, s')
  {
    hide FlightOk, MintOk, BirthOk, FateOk, DeliveredOk, TablesOk, WriteOnce.Keeps, Continues, Ages;
    forall r | r in s.reqs && r in s'.reqs && s'.reqs[r] == s.reqs[r]
      ensures FlightOk(s', r)
    {
      FlightKept(s, s', r);
    }
    forall i | i in s.issued
      ensures MintOk(s', i)
    {
      MintKept(s, s', i);
    }
    forall j | j in s.ledger
      ensures BirthOk(s', j)
    {
      BirthKept(s, s', j);
    }
    forall j | j in s.ledger && j in s'.ledger && s'.ledger[j].fate == s.ledger[j].fate
      ensures FateOk(s', j)
    {
      FateKept(s, s', j);
    }
    forall token | token in s.delivered
      ensures DeliveredOk(s', token)
    {
      DeliveredKept(s, s', token);
    }
  }
}
