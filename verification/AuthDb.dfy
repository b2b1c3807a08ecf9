/** The auth database: src/db/auth.rs over the schema of src/db/migrations. */
module AuthDb {
  import opened AuthCore
  import WriteOnce

  datatype User = User(id: Uuid, username: string, passwordHash: Hash)

  datatype UserRow = UserRow(username: string, passwordHash: Hash, createdAt: i64)

  datatype TokenRow = TokenRow(userId: Uuid, expiresAt: i64, createdAt: i64)

  /** The tables `users` and `refresh_tokens` by primary key, and the UNIQUE index on
      `users.username`. */
  datatype Tables = Tables(users: map<Uuid, UserRow>, names: map<string, Uuid>, tokens: map<Uuid, TokenRow>)

  const EMPTY: Tables := Tables(map[], map[], map[])

  /** The statements of the repository, with their bound values. */
  datatype Stmt =
    | InsertUser(id: Uuid, username: string, passwordHash: Hash, createdAt: i64)
    | SelectByName(username: string)
    | SelectById(id: Uuid)
    | InsertToken(jti: Uuid, userId: Uuid, expiresAt: i64, createdAt: i64)
    | DeleteToken(jti: Uuid, now: i64)
    | DeleteTokensOf(userId: Uuid)

  datatype Reply =
    | Inserted | UniqueViolation | ForeignKeyViolation
    | Found(user: User) | Missing
    | Affected(rows: nat)

  function UserOf(t: Tables, id: Uuid): User
    requires id in t.users
  {
    User(id, t.users[id].username, t.users[id].passwordHash)
  }

  /** `DELETE ... WHERE jti = ? AND expires_at > ?` affects a row. */
  predicate Hits(t: Tables, jti: Uuid, now: i64) {
    jti in t.tokens && t.tokens[jti].expiresAt > now
  }

  function TokensOf(t: Tables, userId: Uuid): set<Uuid> {
    set j | j in t.tokens && t.tokens[j].userId == userId
  }

  /** What one statement answers. */
  function Answer(t: Tables, x: Stmt): Reply {
    match x
    case InsertUser(id, username, _, _) =>
      if id in t.users || username in t.names then UniqueViolation else Inserted
    case SelectByName(username) =>
      if username in t.names && t.names[username] in t.users then Found(UserOf(t, t.names[username])) else Missing
    case SelectById(id) =>
      if id in t.users then Found(UserOf(t, id)) else Missing
    case InsertToken(jti, userId, _, _) =>
      if jti in t.tokens then UniqueViolation else if userId !in t.users then ForeignKeyViolation else Inserted
    case DeleteToken(jti, now) => Affected(if Hits(t, jti, now) then 1 else 0)
    case DeleteTokensOf(userId) => Affected(|TokensOf(t, userId)|)
  }

  /** What one statement does; a violated constraint leaves the tables alone. */
  function Effect(t: Tables, x: Stmt): Tables {
    match x
    case InsertUser(id, username, hash, createdAt) =>
      if id in t.users || username in t.names then t
      else t.(users := t.users[id := UserRow(username, hash, createdAt)], names := t.names[username := id])
    case InsertToken(jti, userId, expiresAt, createdAt) =>
      if jti in t.tokens || userId !in t.users then t
      else t.(tokens := t.tokens[jti := TokenRow(userId, expiresAt, createdAt)])
    case DeleteToken(jti, now) =>
      if Hits(t, jti, now) then t.(tokens := t.tokens - {jti}) else t
    case DeleteTokensOf(userId) => t.(tokens := t.tokens - TokensOf(t, userId))
    case _ => t
  }

  /** The schema: the index is one of `users`, and `user_id` references `users(id)`. */
  ghost predicate WellFormed(t: Tables) {
    && (forall n :: n in t.names ==> t.names[n] in t.users && t.users[t.names[n]].username == n)
    && (forall u :: u in t.users ==> t.users[u].username in t.names && t.names[t.users[u].username] == u)
    && (forall j :: j in t.tokens ==> t.tokens[j].userId in t.users)
  }

  /** No statement breaks the schema. */
  lemma StatementsKeepSchema(t: Tables, x: Stmt)
    requires WellFormed(t)
    ensures WellFormed(Effect(t, x))
  {
  }

  /** The tables after a sequence of statements run on a fresh database. */
  function Replay(xs: seq<Stmt>): Tables {
    if xs == [] then EMPTY else Effect(Replay(xs[..|xs| - 1]), xs[|xs| - 1])
  }

  // ---------------------------------The table and its history----------------------------------

  /** Statement `i` stored `jti`. */
  ghost predicate StoredAt(xs: seq<Stmt>, i: nat, jti: Uuid)
    requires i < |xs|
  {
    xs[i].InsertToken? && xs[i].jti == jti && Answer(Replay(xs[..i]), xs[i]) == Inserted
  }

  /** Statement `k` removed the row of `jti`, owned by `owner`: it consumed it, or it
      revoked everything of its owner. A consume that met an expired row is neither. */
  ghost predicate RemovedAt(xs: seq<Stmt>, k: nat, jti: Uuid, owner: Uuid)
    requires k < |xs|
  {
    || (xs[k].DeleteToken? && xs[k].jti == jti && Answer(Replay(xs[..k]), xs[k]) == Affected(1))
    || xs[k] == DeleteTokensOf(owner)
  }

  /** Statement `i` stored `jti` and nothing removed it since. */
  ghost predicate LastsFrom(xs: seq<Stmt>, i: nat, jti: Uuid)
    requires i < |xs| && xs[i].InsertToken?
  {
    StoredAt(xs, i, jti) && forall k :: i < k < |xs| ==> !RemovedAt(xs, k, jti, xs[i].userId)
  }

  /** The last word on `jti` is a store of `row`. */
  ghost predicate Stands(xs: seq<Stmt>, jti: Uuid, row: TokenRow) {
    exists i :: 0 <= i < |xs| && xs[i].InsertToken? && LastsFrom(xs, i, jti) && RowOf(xs[i]) == row
  }

  /** The last word on `jti` is a store with an expiry after `now`. */
  ghost predicate StandsAfter(xs: seq<Stmt>, jti: Uuid, now: i64) {
    exists i :: 0 <= i < |xs| && xs[i].InsertToken? && LastsFrom(xs, i, jti) && xs[i].expiresAt > now
  }

  function RowOf(x: Stmt): TokenRow
    requires x.InsertToken?
  {
    TokenRow(x.userId, x.expiresAt, x.createdAt)
  }

  lemma HistoryGrows(xs: seq<Stmt>, x: Stmt, i: nat, jti: Uuid)
    requires i < |xs| && xs[i].InsertToken?
    ensures LastsFrom(xs + [x], i, jti) <==>
            LastsFrom(xs, i, jti) && !RemovedAt(xs + [x], |xs|, jti, xs[i].userId)
  {
    var ys := xs + [x];
    var owner := xs[i].userId;
    assert ys[..i] == xs[..i];
    forall k | i < k < |xs|
      ensures RemovedAt(ys, k, jti, owner) <==> RemovedAt(xs, k, jti, owner)
    {
      assert ys[..k] == xs[..k];
    }
  }

  /** Every row is the last word of some store. */
  lemma {:induction false} RowHasStore(xs: seq<Stmt>, jti: Uuid) returns (i: nat)
    requires jti in Replay(xs).tokens
    ensures i < |xs| && xs[i].InsertToken? && LastsFrom(xs, i, jti) && RowOf(xs[i]) == Replay(xs).tokens[jti]
  {
    var n := |xs| - 1;
    var ys, x := xs[..n], xs[n];
    assert xs == ys + [x];
    if x.InsertToken? && Answer(Replay(ys), x) == Inserted && x.jti == jti {
      i := n;
    } else {
      i := RowHasStore(ys, jti);
      HistoryGrows(ys, x, i, jti);
    }
  }

  /** Every lasting store has its row. */
  lemma {:induction false} StoreHasRow(xs: seq<Stmt>, i: nat, jti: Uuid)
    requires i < |xs| && xs[i].InsertToken? && LastsFrom(xs, i, jti)
    ensures jti in Replay(xs).tokens && Replay(xs).tokens[jti] == RowOf(xs[i])
  {
    var n := |xs| - 1;
    var ys, x := xs[..n], xs[n];
    assert xs == ys + [x];
    if i < n {
      HistoryGrows(ys, x, i, jti);
      StoreHasRow(ys, i, jti);
    }
  }

  /** The table agrees with its history: after any statements at all, a row is there
      exactly when one of them stored it and none removed it since. */
  lemma RowsAreHistory(xs: seq<Stmt>, jti: Uuid, row: TokenRow)
    ensures jti in Replay(xs).tokens && Replay(xs).tokens[jti] == row <==> Stands(xs, jti, row)
  {
    if jti in Replay(xs).tokens {
      var _ := RowHasStore(xs, jti);
    }
    forall i | 0 <= i < |xs| && xs[i].InsertToken? && LastsFrom(xs, i, jti)
      ensures jti in Replay(xs).tokens && Replay(xs).tokens[jti] == RowOf(xs[i])
    {
      StoreHasRow(xs, i, jti);
    }
  }

  /** A consume of `jti` bound to time `now` affects a row exactly when the history
      holds a store of it with a later expiry and no removal since; rows that linger
      after their expiry change nothing. */
  lemma ConsumeIsHistory(xs: seq<Stmt>, jti: Uuid, now: i64)
    ensures Answer(Replay(xs), DeleteToken(jti, now)) == Affected(1) <==> StandsAfter(xs, jti, now)
  {
    var t := Replay(xs);
    if jti in t.tokens {
      RowsAreHistory(xs, jti, t.tokens[jti]);
    }
    forall i | 0 <= i < |xs| && xs[i].InsertToken? && LastsFrom(xs, i, jti)
      ensures jti in t.tokens && t.tokens[jti] == RowOf(xs[i])
    {
      RowsAreHistory(xs, jti, RowOf(xs[i]));
    }
  }

  // ---------------------------------Repository----------------------------------

  const SIGNING_SECRET: string := "signing_secret"

  /** The repository. Each method but the last is one statement. `up` tells whether the
      database serves it; ids, clock readings and random bytes are arguments. */
  class Db {
    var users: map<Uuid, UserRow>
    var names: map<string, Uuid>
    var refreshTokens: map<Uuid, TokenRow>
    var authConfig: map<string, string>

    constructor ()
      ensures View() == EMPTY && authConfig == map[]
    {
      users, names, refreshTokens, authConfig := map[], map[], map[], map[];
    }

    function View(): Tables
      reads this
    {
      Tables(users, names, refreshTokens)
    }

    method CreateUser(username: string, passwordHash: Hash, id: Uuid, now: u64, up: bool) returns (r: Result<User>)
      modifies this`users, this`names
      ensures View() == if up then Effect(old(View()), InsertUser(id, username, passwordHash, AsI64(now))) else old(View())
      ensures r == if !up then Err(Database)
                   else if id in old(users) || username in old(names) then Err(AlreadyExists)
                   else Ok(User(id, username, passwordHash))
      ensures users == if r.Ok? then old(users)[id := UserRow(username, passwordHash, AsI64(now))] else old(users)
      ensures names == if r.Ok? then old(names)[username := id] else old(names)
    {
      if !up {
        return Err(Database);
      }
      if id in users || username in names {
        return Err(AlreadyExists);
      }
      users := users[id := UserRow(username, passwordHash, AsI64(now))];
      names := names[username := id];
      r := Ok(User(id, username, passwordHash));
    }

    method FindUserByUsername(username: string, up: bool) returns (r: Result<Option<User>>)
      ensures r == if !up then Err(Database)
                   else match Answer(View(), SelectByName(username))
                     case Found(user) => Ok(Some(user))
                     case _ => Ok(None)
      ensures r.Ok? && r.value.Some? ==>
                && username in names && names[username] == r.value.value.id && names[username] in users
                && r.value.value.passwordHash == users[names[username]].passwordHash
      ensures r == Ok(None) ==> username !in names || names[username] !in users
    {
      if !up {
        return Err(Database);
      }
      if username in names && names[username] in users {
        var row := users[names[username]];
        return Ok(Some(User(names[username], row.username, row.passwordHash)));
      }
      r := Ok(None);
    }

    method FindUserById(id: Uuid, up: bool) returns (r: Result<Option<User>>)
      ensures r == if !up then Err(Database)
                   else match Answer(View(), SelectById(id))
                     case Found(user) => Ok(Some(user))
                     case _ => Ok(None)
      ensures up ==> r == Ok(if id in users then Some(User(id, users[id].username, users[id].passwordHash)) else None)
    {
      if !up {
        return Err(Database);
      }
      if id in users {
        return Ok(Some(User(id, users[id].username, users[id].passwordHash)));
      }
      r := Ok(None);
    }

    /** The clock is read once for the expiry and once for `created_at`. */
    method StoreRefreshToken(jti: Uuid, userId: Uuid, ttl: u64, expiryNow: u64, createdNow: u64, up: bool)
      returns (r: Result<()>)
      modifies this`refreshTokens
      ensures View() == if up then Effect(old(View()), InsertToken(jti, userId, RowExpiry(expiryNow, ttl), AsI64(createdNow)))
                        else old(View())
      ensures r == if up && jti !in old(refreshTokens) && userId in users then Ok(()) else Err(Database)
      ensures refreshTokens ==
              if r.Ok? then old(refreshTokens)[jti := TokenRow(userId, RowExpiry(expiryNow, ttl), AsI64(createdNow))]
              else old(refreshTokens)
    {
      var expiresAt := RowExpiry(expiryNow, ttl);
      if !up || jti in refreshTokens || userId !in users {
        return Err(Database);
      }
      refreshTokens := refreshTokens[jti := TokenRow(userId, expiresAt, AsI64(createdNow))];
      r := Ok(());
    }

    method ConsumeRefreshToken(jti: Uuid, now: u64, up: bool) returns (r: Result<bool>)
      modifies this`refreshTokens
      ensures View() == if up then Effect(old(View()), DeleteToken(jti, AsI64(now))) else old(View())
      ensures r == if up then Ok(jti in old(refreshTokens) && old(refreshTokens)[jti].expiresAt > AsI64(now)) else Err(Database)
      ensures refreshTokens == if r == Ok(true) then old(refreshTokens) - {jti} else old(refreshTokens)
    {
      if !up {
        return Err(Database);
      }
      if jti in refreshTokens && refreshTokens[jti].expiresAt > AsI64(now) {
        refreshTokens := refreshTokens - {jti};
        return Ok(true);
      }
      r := Ok(false);
    }

    method DeleteRefreshTokensForUser(userId: Uuid, up: bool) returns (r: Result<()>)
      modifies this`refreshTokens
      ensures View() == if up then Effect(old(View()), DeleteTokensOf(userId)) else old(View())
      ensures r == if up then Ok(()) else Err(Database)
      ensures forall j :: j in refreshTokens <==> j in old(refreshTokens) && (up ==> old(refreshTokens)[j].userId != userId)
      ensures forall j :: j in refreshTokens ==> refreshTokens[j] == old(refreshTokens)[j]
    {
      if !up {
        return Err(Database);
      }
      refreshTokens := refreshTokens - set j | j in refreshTokens && refreshTokens[j].userId == userId;
      r := Ok(());
    }

    /** Two statements; here nobody comes in between. */
    method LoadOrGenerateSecret(random: string, selectUp: bool, insertUp: bool) returns (r: Result<string>)
      modifies this`authConfig
      ensures r.Ok? <==> selectUp && (SIGNING_SECRET in old(authConfig) || insertUp)
      ensures r.Ok? ==> WriteOnce.Selected(authConfig, SIGNING_SECRET, random) == WriteOnce.Returned(r.value)
      ensures r.Ok? ==> r.value == if SIGNING_SECRET in old(authConfig) then old(authConfig)[SIGNING_SECRET] else random
      ensures r.Err? ==> r.error == Database
      ensures r.Ok? ==> SIGNING_SECRET in authConfig && authConfig[SIGNING_SECRET] == r.value
      ensures authConfig == if r.Ok? then WriteOnce.RowsAfter(old(authConfig), SIGNING_SECRET, random) else old(authConfig)
    {
      if !selectUp {
        return Err(Database);
      }
      if SIGNING_SECRET in authConfig {
        return Ok(authConfig[SIGNING_SECRET]);
      }
      if !insertUp {
        return Err(Database);
      }
      authConfig := authConfig[SIGNING_SECRET := random];
      r := Ok(random);
    }
  }
}
