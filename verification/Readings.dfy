/** Where times, ids and salts come from: each is a clock reading, or a fresh draw, of the
    request that set it. */
module Readings {
  import opened AuthCore
  import opened AuthDb
  import opened Machine
  import opened Ledger
  import opened Protocol
  import opened Invariant
  import opened Steps
  import opened Traces
  import WriteOnce

  /** The request read the clock as `t`. */
  ghost predicate Read(f: Flight, t: u64) {
    exists k :: ReadAt(f, k, t)
  }

  predicate ReadAt(f: Flight, k: int, t: int) {
    0 <= k < |f.script| && f.script[k].Go? && f.script[k].now == t
  }

  /** The request drew `id` at its step `k`. */
  predicate DrewAt(f: Flight, k: int, id: string) {
    0 <= k < |f.script| && f.script[k].Go? && f.script[k].seed == id
  }

  ghost predicate Drew(f: Flight, id: string) {
    exists k :: DrewAt(f, k, id)
  }

  ghost predicate ExpiryRead(f: Flight, expiresAt: i64) {
    exists t :: Read(f, t) && expiresAt == RowExpiry(t, f.req.cfg.refreshTtl)
  }

  ghost predicate CreationRead(f: Flight, createdAt: i64) {
    exists t :: Read(f, t) && createdAt == AsI64(t)
  }

  /** Readings never go back, and are not of the future; what was drawn is on record. */
  ghost predicate ScriptStamped(s: State, f: Flight) {
    && (forall i, t :: ReadAt(f, i, t) ==> t <= s.clock)
    && (forall i, k, t, t' :: ReadAt(f, i, t) && ReadAt(f, k, t') && i <= k ==> t <= t')
    && (forall k, id :: DrewAt(f, k, id) ==> id in s.ids)
    && (f.req.pc.Start? ==> f.script == [])
    && (!f.req.pc.Start? ==> f.script != [] && (f.script[0].Go? || f.req.pc.Dropped?))
  }

  ghost predicate PcStamped(f: Flight) {
    match f.req.pc
    case Hashed(hash) => Drew(f, hash.salt)
    case Creating(user, createdAt) =>
      Drew(f, user.id) && Drew(f, user.passwordHash.salt) && user.id != user.passwordHash.salt && CreationRead(f, createdAt)
    case Expiring(_, _, _, expiresAt) => ExpiryRead(f, expiresAt)
    case Storing(_, _, _, expiresAt, createdAt) => ExpiryRead(f, expiresAt) && CreationRead(f, createdAt)
    case _ => true
  }

  ghost predicate FlightStamped(s: State, r: nat)
    requires r in s.reqs
  {
    ScriptStamped(s, s.reqs[r]) && PcStamped(s.reqs[r])
  }

  ghost predicate MintStamped(s: State, i: Uuid)
    requires i in s.issued
  {
    var m := s.issued[i];
    m.req in s.reqs && Read(s.reqs[m.req], m.claims.iat) && Drew(s.reqs[m.req], i)
  }

  ghost predicate UserStamped(s: State, u: Uuid)
    requires u in s.db.users
  {
    var row := s.db.users[u];
    && u in s.creators && s.creators[u] in s.reqs
    && var f := s.reqs[s.creators[u]];
       Drew(f, u) && Drew(f, row.passwordHash.salt) && u != row.passwordHash.salt && CreationRead(f, row.createdAt)
  }

  ghost predicate LifeStamped(s: State, j: Uuid)
    requires j in s.ledger
  {
    var life := s.ledger[j];
    && life.storedBy in s.reqs
    && ExpiryRead(s.reqs[life.storedBy], life.row.expiresAt) && CreationRead(s.reqs[life.storedBy], life.row.createdAt)
  }

  /** No two steps draw the same. */
  ghost predicate DrawsApart(s: State) {
    forall q, r, i, k, id :: q in s.reqs && r in s.reqs && DrewAt(s.reqs[q], i, id) && DrewAt(s.reqs[r], k, id) ==>
      q == r && i == k
  }

  ghost predicate Stamped(s: State) {
    && (forall r {:trigger FlightStamped(s, r)} :: r in s.reqs ==> FlightStamped(s, r))
    && (forall i {:trigger MintStamped(s, i)} :: i in s.issued ==> MintStamped(s, i))
    && (forall u {:trigger UserStamped(s, u)} :: u in s.db.users ==> UserStamped(s, u))
    && (forall j {:trigger LifeStamped(s, j)} :: j in s.ledger ==> LifeStamped(s, j))
    && DrawsApart(s)
  }

  // ---------------------------------Growth----------------------------------

  lemma ReadsStay(f: Flight, g: Flight)
    requires f.script <= g.script && g.req.cfg == f.req.cfg
    ensures forall t :: Read(f, t) ==> Read(g, t)
    ensures forall id :: Drew(f, id) ==> Drew(g, id)
    ensures forall e :: ExpiryRead(f, e) ==> ExpiryRead(g, e)
    ensures forall c :: CreationRead(f, c) ==> CreationRead(g, c)
  {
    forall k, t | ReadAt(f, k, t)
      ensures ReadAt(g, k, t)
    {
      assert g.script[k] == f.script[k];
    }
    forall k, id | DrewAt(f, k, id)
      ensures DrewAt(g, k, id)
    {
      assert g.script[k] == f.script[k];
    }
  }

  lemma ReadsGrow(s: State, s': State, r: nat)
    requires Grows(s, s') && r in s.reqs
    ensures r in s'.reqs && s.reqs[r].script <= s'.reqs[r].script && s'.reqs[r].req.cfg == s.reqs[r].req.cfg
  {
    assert Continues(s.reqs[r], s'.reqs[r]);
    hide WriteOnce.Keeps, ReqsGrow, LedgerGrows;
  }

  lemma StampedKept(s: State, s': State, r: nat)
    requires s.clock <= s'.clock && s.ids <= s'.ids && r in s.reqs && r in s'.reqs && s'.reqs[r] == s.reqs[r]
    requires FlightStamped(s, r)
    ensures FlightStamped(s', r)
  {
    hide PcStamped;
  }

  lemma MintStampedKept(s: State, s': State, i: Uuid)
    requires Grows(s, s') && i in s.issued && MintStamped(s, i)
    ensures i in s'.issued && MintStamped(s', i)
  {
    ReadsGrow(s, s', s.issued[i].req);
    ReadsStay(s.reqs[s.issued[i].req], s'.reqs[s.issued[i].req]);
    hide WriteOnce.Keeps, ReqsGrow, LedgerGrows, Read, Drew;
  }

  lemma UserStampedKept(s: State, s': State, u: Uuid)
    requires Grows(s, s') && u in s.db.users && UserStamped(s, u)
    ensures u in s'.db.users && UserStamped(s', u)
  {
    ReadsGrow(s, s', s.creators[u]);
    ReadsStay(s.reqs[s.creators[u]], s'.reqs[s.creators[u]]);
    hide WriteOnce.Keeps, ReqsGrow, LedgerGrows, Read, Drew, CreationRead;
  }

  lemma LifeStampedKept(s: State, s': State, j: Uuid)
    requires Grows(s, s') && j in s.ledger && LifeStamped(s, j)
    ensures j in s'.ledger && LifeStamped(s', j)
  {
    ReadsGrow(s, s', s.ledger[j].storedBy);
    ReadsStay(s.reqs[s.ledger[j].storedBy], s'.reqs[s.ledger[j].storedBy]);
    assert Ages(s.ledger[j], s'.ledger[j]);
    hide WriteOnce.Keeps, ReqsGrow, LedgerGrows, CreationRead, ExpiryRead;
  }

  // ---------------------------------Steps----------------------------------

  /** The flight of `r` after its step. */
  lemma FlightAfter(s: State, r: nat, input: Input)
    requires Enabled(s, Step(r, input))
    ensures r in StepOf(s, r, input).reqs
    ensures var f, g := s.reqs[r], StepOf(s, r, input).reqs[r];
            && g.script == f.script + [input] && g.req == NextReq(s.db, f.req, input) && g.after == f.after
            && g.req.cfg == f.req.cfg
            && (input.Go? ==> ReadAt(g, |f.script|, s.clock) && DrewAt(g, |f.script|, input.seed))
  {
    hide Record, Effect;
  }

  lemma ActorScript(s: State, r: nat, input: Input)
    requires Enabled(s, Step(r, input)) && ScriptStamped(s, s.reqs[r])
    ensures ScriptStamped(StepOf(s, r, input), StepOf(s, r, input).reqs[r])
  {
    FlightAfter(s, r, input);
    var s', f, g := StepOf(s, r, input), s.reqs[r], StepOf(s, r, input).reqs[r];
    assert s'.clock == s.clock && s'.ids == if input.Go? then s.ids + {input.seed} else s.ids;
    FirstInput(s, r, input);
    hide StepOf, NextReq;
    forall k, t | ReadAt(g, k, t)
      ensures k < |f.script| ==> ReadAt(f, k, t)
      ensures k >= |f.script| ==> t == s.clock
    {
    }
    forall k, id | DrewAt(g, k, id)
      ensures k < |f.script| ==> DrewAt(f, k, id)
      ensures k >= |f.script| ==> id == input.seed
    {
    }
  }

  /** A request that starts with being dropped stays so. */
  lemma FirstInput(s: State, r: nat, input: Input)
    requires Enabled(s, Step(r, input)) && ScriptStamped(s, s.reqs[r])
    ensures var g := StepOf(s, r, input).reqs[r]; g.script != [] && (g.script[0].Go? || g.req.pc.Dropped?)
  {
    FlightAfter(s, r, input);
    hide Record, Effect, Answer, Enter;
  }

  lemma ActorPc(s: State, r: nat, input: Input)
    requires Inv(s) && Enabled(s, Step(r, input)) && FlightStamped(s, r)
    ensures PcStamped(StepOf(s, r, input).reqs[r])
  {
    AtRequest(s, r) by { Parts(s); }
    FlightAfter(s, r, input);
    var f, g := s.reqs[r], StepOf(s, r, input).reqs[r];
    ReadsStay(f, g);
    assert f.req.pc.Hashed? && input.Go? ==> f.req.pc.hash.salt != input.seed;
    if input.Go? {
      assert Read(g, input.now) && Drew(g, input.seed);
    }
    hide Inv, StepOf, FlightOk, ScriptOk, Read, Drew, Vouched, Answer, RowExpiry, AsI64;
    NextPc(s.db, f.req, input);
    hide NextReq;
  }

  /** What the next pc can hold. */
  lemma NextPc(t: Tables, req: Req, input: Input)
    requires Fits(req)
    ensures var pc, next := req.pc, NextReq(t, req, input).pc;
            && (next.Hashed? ==> next == pc || (input.Go? && next.hash.salt == input.seed))
            && (next.Creating? && next != pc ==>
                  && input.Go? && pc.Hashed? && next.user.id == input.seed && next.user.passwordHash == pc.hash
                  && next.createdAt == AsI64(input.now))
            && (next.Expiring? ==> next == pc || (input.Go? && next.expiresAt == RowExpiry(input.now, req.cfg.refreshTtl)))
            && (next.Storing? && next != pc ==>
                  input.Go? && pc.Expiring? && next.expiresAt == pc.expiresAt && next.createdAt == AsI64(input.now))
  {
    hide Answer, VerifyKind, RowExpiry, AsI64;
  }

  /** A token is minted with the reading and the draw of the step that mints it. */
  lemma NewMintStamped(s: State, r: nat, input: Input, i: Uuid)
    requires Enabled(s, Step(r, input)) && i in StepOf(s, r, input).issued
    requires i !in s.issued || StepOf(s, r, input).issued[i] != s.issued[i]
    ensures input.Go? && i == input.seed
    ensures var m := StepOf(s, r, input).issued[i];
            && m.req == r && m.claims.jti == i && m.claims.iat == s.clock
            && m.claims.exp == ClaimExpiry(s.clock, if m.claims.kind == Access then s.reqs[r].req.cfg.accessTtl
                                                    else s.reqs[r].req.cfg.refreshTtl)
    ensures MintStamped(StepOf(s, r, input), i)
  {
    FlightAfter(s, r, input);
    hide Record, Effect, Answer, Enter, ClaimExpiry;
  }

  lemma NewUserStamped(s: State, r: nat, input: Input, u: Uuid)
    requires Inv(s) && Enabled(s, Step(r, input)) && FlightStamped(s, r)
    requires u in StepOf(s, r, input).db.users && u !in s.db.users
    ensures UserStamped(StepOf(s, r, input), u)
  {
    FlightAfter(s, r, input);
    ReadsStay(s.reqs[r], StepOf(s, r, input).reqs[r]);
    hide Inv, Record, Read, Drew, CreationRead, ScriptStamped;
  }

  lemma NewLifeStamped(s: State, r: nat, input: Input, j: Uuid)
    requires Inv(s) && Enabled(s, Step(r, input)) && FlightStamped(s, r)
    requires j in StepOf(s, r, input).ledger && j !in s.ledger
    ensures LifeStamped(StepOf(s, r, input), j)
  {
    FlightAfter(s, r, input);
    ReadsStay(s.reqs[r], StepOf(s, r, input).reqs[r]);
    NewLife(s, r, input, j) by { Parts(s); }
    NewRow(s, r, input, j) by { Parts(s); }
    hide Inv, StepOf, CreationRead, ExpiryRead, ScriptStamped;
  }

  lemma NewRow(s: State, r: nat, input: Input, j: Uuid)
    requires Enabled(s, Step(r, input)) && Mirrors(s.ledger, s.db)
    requires j in StepOf(s, r, input).ledger && j !in s.ledger
    ensures s.reqs[r].req.pc.Storing? && StepOf(s, r, input).ledger[j].storedBy == r
    ensures var pc := s.reqs[r].req.pc;
            StepOf(s, r, input).ledger[j].row == TokenRow(pc.user.id, pc.expiresAt, pc.createdAt)
  {
    hide Effect, NextReq;
  }

  lemma StepDrawsApart(s: State, r: nat, input: Input)
    requires Stamped(s) && Enabled(s, Step(r, input))
    ensures DrawsApart(StepOf(s, r, input))
  {
    var s' := StepOf(s, r, input);
    FlightAfter(s, r, input);
    assert forall q :: q in s.reqs && q != r ==> s'.reqs[q] == s.reqs[q];
    assert s'.reqs.Keys == s.reqs.Keys;
    hide StepOf, NextReq, MintStamped, UserStamped, LifeStamped;
    forall q, k, id | q in s'.reqs && DrewAt(s'.reqs[q], k, id)
      ensures if q == r && k == |s.reqs[r].script| then input.Go? && id == input.seed else DrewAt(s.reqs[q], k, id) && id in s.ids
    {
      assert FlightStamped(s, q);
    }
  }

  lemma StepStamped(s: State, r: nat, input: Input)
    requires Inv(s) && Stamped(s) && Enabled(s, Step(r, input))
    ensures Stamped(StepOf(s, r, input))
  {
    hide Inv, StepOf, FlightStamped, MintStamped, UserStamped, LifeStamped, DrawsApart;
    var s' := StepOf(s, r, input);
    StepKeepsInv(s, r, input);
    StepDrawsApart(s, r, input);
    forall q | q in s'.reqs
      ensures FlightStamped(s', q)
    {
      assert q in s.reqs && (q != r ==> s'.reqs[q] == s.reqs[q]) by { OthersInFlight(s, r, input, q); }
      if q == r {
        assert FlightStamped(s', r) by { ActorStamped(s, r, input); }
      } else {
        hide ReqsGrow, LedgerGrows;
        StampedKept(s, s', q);
      }
    }
    hide Grows;
    forall i | i in s'.issued
      ensures MintStamped(s', i)
    {
      if i in s.issued && s'.issued[i] == s.issued[i] {
        MintStampedKept(s, s', i);
      } else {
        NewMintStamped(s, r, input, i);
      }
    }
    forall u | u in s'.db.users
      ensures UserStamped(s', u)
    {
      if u in s.db.users {
        UserStampedKept(s, s', u);
      } else {
        NewUserStamped(s, r, input, u);
      }
    }
    forall j | j in s'.ledger
      ensures LifeStamped(s', j)
    {
      if j in s.ledger {
        LifeStampedKept(s, s', j);
      } else {
        NewLifeStamped(s, r, input, j);
      }
    }
  }

  lemma ActorStamped(s: State, r: nat, input: Input)
    requires Inv(s) && Enabled(s, Step(r, input)) && FlightStamped(s, r)
    ensures r in StepOf(s, r, input).reqs && FlightStamped(StepOf(s, r, input), r)
  {
    ActorScript(s, r, input);
    ActorPc(s, r, input);
    FlightAfter(s, r, input);
    hide Inv, StepOf, ScriptStamped, PcStamped;
  }

  lemma BeginsUnstamped(s: State, r: nat, server: nat, call: Call)
    requires DrawsApart(s) && Enabled(s, Begin(r, server, call))
    ensures var s' := Apply(s, Begin(r, server, call));
            && r in s'.reqs && FlightStamped(s', r) && DrawsApart(s')
            && (forall q :: q in s'.reqs ==> q == r || (q in s.reqs && s'.reqs[q] == s.reqs[q]))
            && s'.clock == s.clock && s'.ids == s.ids && s'.issued == s.issued && s'.db == s.db && s'.ledger == s.ledger
  {
    hide CanPresent, ServerConfig, Built, FinishedRequests;
  }

  lemma BeginStamped(s: State, r: nat, server: nat, call: Call)
    requires Inv(s) && Stamped(s) && Enabled(s, Begin(r, server, call))
    ensures Stamped(Apply(s, Begin(r, server, call)))
  {
    hide Inv, Apply, Grows, FlightStamped, MintStamped, UserStamped, LifeStamped, DrawsApart;
    var s' := Apply(s, Begin(r, server, call));
    BeginGrows(s, r, server, call);
    BeginsUnstamped(s, r, server, call);
    forall q | q in s'.reqs
      ensures FlightStamped(s', q)
    {
      if q != r {
        StampedKept(s, s', q);
      }
    }
    KeepRest(s, s');
  }

  /** All but the requests. */
  lemma KeepRest(s: State, s': State)
    requires Grows(s, s') && Stamped(s) && s'.issued == s.issued && s'.db == s.db && s'.ledger == s.ledger
    ensures forall i {:trigger MintStamped(s', i)} :: i in s'.issued ==> MintStamped(s', i)
    ensures forall u {:trigger UserStamped(s', u)} :: u in s'.db.users ==> UserStamped(s', u)
    ensures forall j {:trigger LifeStamped(s', j)} :: j in s'.ledger ==> LifeStamped(s', j)
  {
    hide Grows, FlightStamped, MintStamped, UserStamped, LifeStamped, DrawsApart;
    forall i | i in s'.issued
      ensures MintStamped(s', i)
    {
      MintStampedKept(s, s', i);
    }
    forall u | u in s'.db.users
      ensures UserStamped(s', u)
    {
      UserStampedKept(s, s', u);
    }
    forall j | j in s'.ledger
      ensures LifeStamped(s', j)
    {
      LifeStampedKept(s, s', j);
    }
  }

  lemma QuietStamped(s: State, s': State)
    requires Stamped(s) && Grows(s, s') && s' == s.(clock := s'.clock, boot := s'.boot, servers := s'.servers)
    ensures Stamped(s')
  {
    forall r | r in s.reqs
      ensures FlightStamped(s', r)
    {
      assert FlightStamped(s, r);
      StampedKept(s, s', r);
    }
    KeepRest(s, s');
    hide Grows, FlightStamped, MintStamped, UserStamped, LifeStamped;
  }

  lemma ActionStamped(s: State, a: Action)
    requires Inv(s) && Stamped(s) && Enabled(s, a)
    ensures Stamped(Apply(s, a))
  {
    hide Inv, Stamped, StepOf, Grows;
    ActionKeepsInv(s, a);
    match a
    case Step(r, input) => StepStamped(s, r, input);
    case Begin(r, server, call) => BeginStamped(s, r, server, call);
    case _ => QuietStamped(s, Apply(s, a));
  }

  lemma {:induction false} RunStamped(s: State, acts: seq<Action>)
    requires Inv(s) && Stamped(s) && Valid(s, acts)
    ensures Stamped(Run(s, acts))
    decreases |acts|
  {
    hide Inv, Stamped, Enabled, Apply;
    if acts != [] {
      ActionStamped(s, acts[0]);
      ActionKeepsInv(s, acts[0]);
      RunStamped(Apply(s, acts[0]), acts[1..]);
    }
  }

  lemma ReachableStamped(s: State)
    requires Reachable(s)
    ensures Stamped(s)
  {
    var acts :| Valid(INITIAL, acts) && Run(INITIAL, acts) == s;
    InitialInv();
    RunStamped(INITIAL, acts);
  }

  // ---------------------------------What it means----------------------------------

  /** When the request began. */
  function Began(f: Flight): u64 {
    if f.script != [] && f.script[0].Go? then f.script[0].now else 0
  }

  lemma ReadInBetween(s: State, f: Flight, t: u64)
    requires ScriptStamped(s, f) && Read(f, t)
    ensures Began(f) <= t <= s.clock
  {
    var k :| ReadAt(f, k, t);
    if f.script[0].Go? {
      assert ReadAt(f, 0, f.script[0].now);
    }
  }

  /** A token was issued between the beginning of its request and now, whatever its kind. */
  lemma IssuedInTime(s: State, i: Uuid)
    requires Reachable(s) && i in s.issued
    ensures var m := s.issued[i]; m.req in s.reqs && Began(s.reqs[m.req]) <= m.claims.iat <= s.clock
  {
    ReachableStamped(s);
    hide Reachable;
    assert MintStamped(s, i);
    assert FlightStamped(s, s.issued[i].req);
    ReadInBetween(s, s.reqs[s.issued[i].req], s.issued[i].claims.iat);
  }

  /** A stored token's expiry is a reading of its storer plus the lifetime, its creation time
      a reading; neither is of the future. */
  lemma RowTimes(s: State, j: Uuid)
    requires Reachable(s) && j in s.ledger
    ensures s.ledger[j].storedBy in s.reqs
    ensures var f, row := s.reqs[s.ledger[j].storedBy], s.ledger[j].row;
            && (exists t :: Began(f) <= t <= s.clock && Read(f, t) && row.expiresAt == RowExpiry(t, f.req.cfg.refreshTtl))
            && (exists t :: Began(f) <= t <= s.clock && Read(f, t) && row.createdAt == AsI64(t))
  {
    ReachableStamped(s);
    hide Reachable;
    assert LifeStamped(s, j);
    var f, row := s.reqs[s.ledger[j].storedBy], s.ledger[j].row;
    assert FlightStamped(s, s.ledger[j].storedBy);
    var e :| Read(f, e) && row.expiresAt == RowExpiry(e, f.req.cfg.refreshTtl);
    var c :| Read(f, c) && row.createdAt == AsI64(c);
    ReadInBetween(s, f, e);
    ReadInBetween(s, f, c);
  }

  /** Users: the id and the salt were drawn for them alone, the creation time is a reading. */
  lemma UsersApart(s: State, u: Uuid, v: Uuid)
    requires Reachable(s) && u in s.db.users && v in s.db.users && u != v
    ensures s.db.users[u].passwordHash.salt != s.db.users[v].passwordHash.salt
    ensures s.db.users[u].passwordHash.salt != v
    ensures u in s.creators && s.creators[u] in s.reqs && CreationRead(s.reqs[s.creators[u]], s.db.users[u].createdAt)
  {
    ReachableStamped(s);
    hide Reachable;
    assert UserStamped(s, u) && UserStamped(s, v);
    var f, g := s.reqs[s.creators[u]], s.reqs[s.creators[v]];
    var uSalt, vSalt := s.db.users[u].passwordHash.salt, s.db.users[v].passwordHash.salt;
    var i :| DrewAt(f, i, uSalt);
    var k :| DrewAt(g, k, vSalt);
    var m :| DrewAt(f, m, u);
    var n :| DrewAt(g, n, v);
    if s.creators[u] == s.creators[v] {
      ReachableCreators(s, u, v);
      assert false;
    }
  }

  /** Nobody creates two users. */
  lemma ReachableCreators(s: State, u: Uuid, v: Uuid)
    requires Reachable(s) && u in s.creators && v in s.creators && s.creators[u] == s.creators[v]
    ensures u == v
  {
    ReachableTraced(s);
    assert CreatorRan(s, u) && CreatorRan(s, v);
  }
}
