/** Building a server, and what tokens mean across servers: src/server.rs. */
module Server {
  import opened AuthCore
  import opened AuthDb
  import opened Protocol
  import opened Invariant
  import opened Steps
  import WriteOnce

  /** What the auth routes and the auth layer of a built server hold. */
  datatype Servir = Servir(routes: Config, layer: Config)

  /** Both clones are taken after the lifetimes and the secret are set, so the extractor
      verifies under what the routes sign. */
  method Build(db: Db, opts: Options, random: string, selectUp: bool, insertUp: bool) returns (r: Result<Servir>)
    modifies db`authConfig
    ensures r.Ok? <==> selectUp && (SIGNING_SECRET in old(db.authConfig) || insertUp)
    ensures r.Err? ==> r.error == Database
    ensures r.Ok? ==>
              && SIGNING_SECRET in db.authConfig
              && r.value.routes == ConfigOf(opts, db.authConfig[SIGNING_SECRET])
              && r.value.layer == r.value.routes
    ensures r.Ok? ==>
              var cfg := r.value.routes;
              && cfg.secret == db.authConfig[SIGNING_SECRET] && cfg.leeway == opts.leeway
              && cfg.accessTtl == (match opts.accessTtl case Some(secs) => secs case None => 900)
              && cfg.refreshTtl == (match opts.refreshTtl case Some(secs) => secs case None => 604_800)
    ensures db.authConfig ==
            if r.Ok? then WriteOnce.RowsAfter(old(db.authConfig), SIGNING_SECRET, random) else old(db.authConfig)
  {
    var authConfig := new AuthConfig.WithDefaults(opts.leeway);
    if opts.accessTtl.Some? {
      authConfig.SetAccessTokenTtl(opts.accessTtl.value);
    }
    if opts.refreshTtl.Some? {
      authConfig.SetRefreshTokenTtl(opts.refreshTtl.value);
    }
    var secret := db.LoadOrGenerateSecret(random, selectUp, insertUp);
    if secret.Err? {
      return Err(Database);
    }
    authConfig.SetSecret(secret.value);
    var routes := authConfig.Clone();
    var layer := authConfig.Clone();
    r := Ok(Servir(routes, layer));
  }

  /** A built server works with what it was launched with, or with the defaults. */
  lemma BuiltLifetimes(s: State, server: nat)
    requires Built(s, server)
    ensures var cfg, opts := ServerConfig(s, server), s.servers[server];
            && cfg.accessTtl == (match opts.accessTtl case Some(secs) => secs case None => 900)
            && cfg.refreshTtl == (match opts.refreshTtl case Some(secs) => secs case None => 604_800)
            && cfg.leeway == opts.leeway
  {
  }

  lemma BuiltSecret(s: State, server: nat)
    requires TablesOk(s) && Built(s, server)
    ensures SIGNING_SECRET in s.boot.rows && ServerConfig(s, server).secret == s.boot.rows[SIGNING_SECRET]
  {
  }

  /** Secret agreement: servers built before or during any run, restarts and crashes
      included, have one same secret, and a built server keeps its configuration. */
  lemma OneSecret(s: State, acts: seq<Action>, i: nat, j: nat)
    requires Reachable(s) && Valid(s, acts) && Built(s, i) && Built(Run(s, acts), j)
    ensures Built(Run(s, acts), i) && ServerConfig(Run(s, acts), i) == ServerConfig(s, i)
    ensures ServerConfig(Run(s, acts), j).secret == ServerConfig(s, i).secret
  {
    ReachableInv(s);
    RunKeepsInv(s, acts);
    Parts(s);
    Parts(Run(s, acts));
    BuiltSecret(s, i);
    BuiltSecret(Run(s, acts), j);
    hide Inv, TablesOk, ReqsGrow, LedgerGrows;
  }

  /** Cross-instance verification: a token any server has delivered verifies at every other
      server, built before or later, exactly until its expiry plus that server's leeway. */
  lemma VerifiesEverywhere(s: State, acts: seq<Action>, token: Token, server: nat, now: u64)
    requires Reachable(s) && Valid(s, acts) && token in s.delivered && Built(Run(s, acts), server)
    ensures token.Jwt?
    ensures var cfg := ServerConfig(Run(s, acts), server);
            VerifyToken(token, cfg, now) ==
            if now <= token.claims.exp + cfg.leeway then Ok(token.claims) else Err(TokenExpired)
  {
    ReachableInv(s);
    RunKeepsInv(s, acts);
    Parts(s);
    Parts(Run(s, acts));
    BuiltSecret(Run(s, acts), server);
    hide Inv, TablesOk, ReqsGrow, LedgerGrows, ServerConfig;
    assert DeliveredOk(s, token);
  }
}
