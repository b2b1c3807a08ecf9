/** Every step keeps the invariant and only adds to history. */
module Steps {
  import opened AuthCore
  import opened AuthDb
  import opened Machine
  import opened Ledger
  import opened Protocol
  import opened Invariant
  import WriteOnce

  // ---------------------------------Growth----------------------------------

  /** The token a request is about to store was never stored. */
  lemma UnstoredToken(s: State, r: nat)
    requires Births(s) && r in s.reqs && PcOk(s, r) && s.reqs[r].req.pc.Storing?
    ensures s.reqs[r].req.pc.refresh.jti !in s.ledger
  {
    var jti := s.reqs[r].req.pc.refresh.jti;
    assert jti in s.ledger ==> BirthOk(s, jti);
  }

  /** The statement a request runs adds a new life, or changes the fate of live tokens. */
  lemma RecordGrows(s: State, r: nat)
    requires Mirrors(s.ledger, s.db) && r in s.reqs && Pending(s.reqs[r].req.pc).Some?
    requires var pc := s.reqs[r].req.pc; pc.Storing? ==> pc.refresh.jti !in s.ledger
    ensures var l := Record(s.ledger, EntryOf(s, r));
            && (forall j :: j in s.ledger ==> j in l && Ages(s.ledger[j], l[j]))
            && (forall j :: j in l && j !in s.ledger ==> l[j].storedBy == r)
            && (forall j :: j in s.ledger && s.ledger[j].fate.Live? && l[j].fate.Spent? ==>
                  s.reqs[r].req.pc.Consuming? && l[j].fate == Spent(r))
  {
  }

  lemma StepContinues(s: State, r: nat, input: Input)
    requires Enabled(s, Step(r, input)) && PcOk(s, r)
    ensures Fits(s.reqs[r].req)
    ensures Continues(s.reqs[r], StepOf(s, r, input).reqs[r])
  {
    StepsAreProgress(s.db, s.reqs[r].req, input);
  }

  lemma StepKeepsUsers(s: State, r: nat, input: Input)
    requires Enabled(s, Step(r, input))
    ensures var s' := StepOf(s, r, input);
            forall u :: u in s.db.users ==> u in s'.db.users && s'.db.users[u] == s.db.users[u]
  {
  }

  lemma StepKeepsCreators(s: State, r: nat, input: Input)
    requires Enabled(s, Step(r, input)) && s.creators.Keys == s.db.users.Keys
    ensures var s' := StepOf(s, r, input);
            && (forall u :: u in s.creators ==> u in s'.creators && s'.creators[u] == s.creators[u])
            && s'.creators.Keys == s'.db.users.Keys
  {
  }

  lemma StepKeepsIssued(s: State, r: nat, input: Input)
    requires Enabled(s, Step(r, input)) && s.issued.Keys <= s.ids
    ensures var s' := StepOf(s, r, input);
            && (forall i :: i in s.issued ==> i in s'.issued && s'.issued[i] == s.issued[i])
            && s'.issued.Keys <= s'.ids
  {
  }

  lemma StepLedgerGrows(s: State, r: nat, input: Input)
    requires Enabled(s, Step(r, input)) && PcOk(s, r) && Births(s) && Mirrors(s.ledger, s.db)
    ensures LedgerGrows(s, StepOf(s, r, input))
  {
    var pc := s.reqs[r].req.pc;
    if Executes(pc, input) {
      if pc.Storing? {
        UnstoredToken(s, r);
        assert Stage(pc) == 9;
      }
      RecordGrows(s, r);
    }
    hide PcOk, NextReq, NextTables, Births, Answer, Ages, Mirrors;
  }

  lemma AtRequest(s: State, r: nat)
    requires Flights(s) && r in s.reqs
    ensures FlightOk(s, r) && PcOk(s, r) && ScriptOk(s.reqs[r])
  {
    assert FlightOk(s, r);
  }

  lemma StepGrows(s: State, r: nat, input: Input)
    requires Inv(s) && Enabled(s, Step(r, input))
    ensures Grows(s, StepOf(s, r, input))
  {
    hide FlightOk, PcOk, ScriptOk, NextReq, NextTables, Record, Continues, LedgerGrows, Mirrors;
    AtRequest(s, r);
    StepContinues(s, r, input);
    StepKeepsUsers(s, r, input);
    StepKeepsCreators(s, r, input);
    StepKeepsIssued(s, r, input);
    StepLedgerGrows(s, r, input);
    assert ReqsGrow(s, StepOf(s, r, input)) by { Unmoved(s); }
  }

  /** A step that runs a statement goes on with its reply. */
  lemma StatementStep(s: State, r: nat, input: Input)
    requires Enabled(s, Step(r, input)) && Executes(s.reqs[r].req.pc, input)
    ensures var pc, s' := s.reqs[r].req.pc, StepOf(s, r, input);
            && s'.reqs[r].req.pc == Resume(pc, Answer(s.db, Pending(pc).value))
            && s'.db == Effect(s.db, Pending(pc).value)
            && s'.ledger == Record(s.ledger, EntryOf(s, r))
  {
  }

  lemma Unmoved(s: State)
    ensures forall r :: r in s.reqs ==> Continues(s.reqs[r], s.reqs[r])
  {
  }

  // ---------------------------------Requests----------------------------------

  lemma StepScriptOk(s: State, r: nat, input: Input)
    requires Enabled(s, Step(r, input)) && PcOk(s, r) && ScriptOk(s.reqs[r])
    ensures ScriptOk(StepOf(s, r, input).reqs[r])
  {
    hide Record, Effect, Answer, Vouched, IsUser, PairOk, Minted, StoredAs, Refused, InRange, IssuedAfter, DeliveredAfter, CreatorsAfter;
  }

  /** A presented refresh token of the server is in the ledger, under the user it names. */
  lemma PresentedToken(s: State, r: nat)
    requires Inv(s) && r in s.reqs
    requires var call := s.reqs[r].req.call;
             (call.Refresh? || call.Logout?) && call.token.Jwt? && Signed(s.reqs[r].req, call.token.claims)
    ensures var c := s.reqs[r].req.call.token.claims;
            c.jti in s.ledger && s.ledger[c.jti].row.userId == c.sub
  {
    hide PcOk, ScriptOk, TablesOk;
    var token := s.reqs[r].req.call.token;
    assert FlightOk(s, r);
    assert DeliveredOk(s, token);
    assert BirthOk(s, token.claims.jti);
  }

  /** Failed and dropped requests. */
  lemma EndPcOk(s: State, r: nat, input: Input)
    requires Enabled(s, Step(r, input)) && (input.Cancel? || !input.ok)
    ensures PcOk(StepOf(s, r, input), r)
  {
    hide Record, Effect, Answer, Vouched, IsUser, PairOk, Minted, StoredAs, Refused, InRange;
  }

  /** Steps without a statement before the first one, and the last step of a logout. */
  lemma EntryPcOk(s: State, r: nat, input: Input)
    requires Enabled(s, Step(r, input)) && PcOk(s, r) && input.Go? && input.ok
    requires Pending(s.reqs[r].req.pc).None? && !InWindow(s.reqs[r].req.pc) && !s.reqs[r].req.pc.Stored?
    ensures PcOk(StepOf(s, r, input), r)
  {
    hide Record, Effect, Answer, Vouched, IsUser, PairOk, Minted, StoredAs, Refused, InRange;
  }

  /** The token response. */
  lemma AnswerPcOk(s: State, r: nat, input: Input)
    requires Enabled(s, Step(r, input)) && PcOk(s, r) && input.Go? && input.ok
    requires s.reqs[r].req.pc.Stored?
    ensures PcOk(StepOf(s, r, input), r)
  {
  }

  /** Neither lifetime of a token wraps in range, and the claims expire first. */
  lemma LifetimesOrdered(iat: u64, now: u64, ttl: u64)
    requires iat <= now && now + ttl < TWO_63
    ensures ClaimExpiry(iat, ttl) <= RowExpiry(now, ttl) == now + ttl && AsI64(now) == now
  {
    LifetimesAgree(iat, ttl);
    LifetimesAgree(now, ttl);
  }

  lemma UserKept(s: State, s': State, r: nat)
    requires Grows(s, s') && r in s.reqs && PcOk(s, r)
    requires 5 <= Stage(s.reqs[r].req.pc) <= 9
    ensures var user := s.reqs[r].req.pc.user;
            r in s'.reqs && IsUser(s', user) && Vouched(s', r, user.id)
  {
    VouchedKept(s, s', r, s.reqs[r].req.pc.user.id);
  }

  /** The claims expire before the row, and the row within a lifetime of its creation. */
  lemma BoundInRange(s: State, r: nat, input: Input)
    requires Enabled(s, Step(r, input)) && PcOk(s, r) && input.Go? && input.ok && Mints(s)
    requires Grows(s, StepOf(s, r, input)) && InRange(StepOf(s, r, input), r)
    ensures var pc, next, ttl := s.reqs[r].req.pc, StepOf(s, r, input).reqs[r].req.pc, s.reqs[r].req.cfg.refreshTtl;
            && (pc.HasPair? ==> pc.refresh.exp <= next.expiresAt <= s.clock + ttl)
            && (pc.Expiring? ==> pc.refresh.exp <= pc.expiresAt <= next.createdAt + ttl)
  {
    hide Grows, Vouched, ClaimExpiry, RowExpiry, AsI64, Record, Effect, Answer, Enter;
    var pc, ttl := s.reqs[r].req.pc, s.reqs[r].req.cfg.refreshTtl;
    InRangeBefore(s, StepOf(s, r, input), r);
    if pc.HasPair? {
      assert MintOk(s, pc.refresh.jti);
      LifetimesOrdered(pc.refresh.iat, s.clock, ttl);
    } else {
      LifetimesOrdered(s.clock, s.clock, ttl);
    }
  }

  /** Issuing the pair and binding its row. */
  lemma IssuePcOk(s: State, r: nat, input: Input)
    requires Enabled(s, Step(r, input)) && PcOk(s, r) && input.Go? && input.ok && Mints(s)
    requires Grows(s, StepOf(s, r, input))
    requires Pending(s.reqs[r].req.pc).None? && InWindow(s.reqs[r].req.pc)
    ensures PcOk(StepOf(s, r, input), r)
  {
    hide ReqsGrow, LedgerGrows, Mints, InRange, IsUser, Vouched, Record, Effect, Answer, Enter, ClaimExpiry, RowExpiry, AsI64;
    var s' := StepOf(s, r, input);
    UserKept(s, s', r);
    if InRange(s', r) {
      BoundInRange(s, r, input);
    }
  }

  // ---------------------------------Statements----------------------------------

  lemma CreatePcOk(s: State, r: nat, input: Input)
    requires Enabled(s, Step(r, input)) && PcOk(s, r) && Executes(s.reqs[r].req.pc, input)
    requires s.reqs[r].req.pc.Creating?
    ensures PcOk(StepOf(s, r, input), r)
  {
    hide Record;
  }

  /** A login finds the one user of its name, and passes with that user's password. */
  lemma FindPcOk(s: State, r: nat, input: Input)
    requires Enabled(s, Step(r, input)) && PcOk(s, r) && Executes(s.reqs[r].req.pc, input)
    requires s.reqs[r].req.pc.Finding? && WellFormed(s.db)
    ensures PcOk(StepOf(s, r, input), r)
  {
    hide Record;
  }

  /** A consume that misses had a replay, or came too late. */
  lemma MissPcOk(s: State, r: nat, input: Input)
    requires Inv(s) && Enabled(s, Step(r, input)) && Executes(s.reqs[r].req.pc, input)
    requires s.reqs[r].req.pc.Consuming? && !Hits(s.db, s.reqs[r].req.pc.claims.jti, s.reqs[r].req.pc.now)
    ensures PcOk(StepOf(s, r, input), r)
  {
    AtRequest(s, r);
    PresentedToken(s, r);
    assert FateOk(s, s.reqs[r].req.pc.claims.jti);
    StatementStep(s, r, input);
    hide FlightOk, Mints, Births, Fates, Deliveries, Flights, ScriptOk, CreatorsOk, StoresOnce, WellFormed, VerifyKind, InRange, Vouched;
  }

  lemma OwnerExists(s: State, j: Uuid)
    requires Inv(s) && j in s.ledger
    ensures s.ledger[j].row.userId in s.db.users
  {
    hide Flights, TablesOk, Fates, Deliveries;
    assert BirthOk(s, j);
    assert MintOk(s, j);
  }

  /** A consume that hits makes its request the one that spent the token. */
  lemma HitPcOk(s: State, r: nat, input: Input)
    requires Enabled(s, Step(r, input)) && PcOk(s, r) && Executes(s.reqs[r].req.pc, input)
    requires s.reqs[r].req.pc.Consuming? && Hits(s.db, s.reqs[r].req.pc.claims.jti, s.reqs[r].req.pc.now)
    requires var c := s.reqs[r].req.pc.claims;
             c.jti in s.ledger && s.ledger[c.jti].row.userId == c.sub && c.sub in s.db.users
    ensures PcOk(StepOf(s, r, input), r)
  {
    StatementStep(s, r, input);
    hide VerifyKind, InRange, Refused;
  }

  /** A consume hits the live row of the presented token; a miss is a replay or too late. */
  lemma ConsumePcOk(s: State, r: nat, input: Input)
    requires Inv(s) && Enabled(s, Step(r, input)) && Executes(s.reqs[r].req.pc, input)
    requires s.reqs[r].req.pc.Consuming?
    ensures PcOk(StepOf(s, r, input), r)
  {
    hide Inv, StepOf, FlightOk, ScriptOk, Executes;
    AtRequest(s, r) by { Parts(s); }
    if Hits(s.db, s.reqs[r].req.pc.claims.jti, s.reqs[r].req.pc.now) {
      PresentedToken(s, r);
      OwnerExists(s, s.reqs[r].req.pc.claims.jti);
      HitPcOk(s, r, input);
    } else {
      MissPcOk(s, r, input);
    }
  }

  /** The owner of a consumed token is there: no refresh answers USER_NOT_FOUND. */
  lemma ResolvePcOk(s: State, r: nat, input: Input)
    requires Enabled(s, Step(r, input)) && PcOk(s, r) && Executes(s.reqs[r].req.pc, input)
    requires s.reqs[r].req.pc.Resolving?
    ensures StepOf(s, r, input).reqs[r].req.pc.Identified?
    ensures PcOk(StepOf(s, r, input), r)
  {
  }

  /** The owner is there and the id is new: no store breaks a constraint. */
  lemma StorePcOk(s: State, r: nat, input: Input)
    requires Enabled(s, Step(r, input)) && PcOk(s, r) && Executes(s.reqs[r].req.pc, input)
    requires s.reqs[r].req.pc.Storing? && Births(s) && Mirrors(s.ledger, s.db)
    ensures StepOf(s, r, input).reqs[r].req.pc.Stored?
    ensures PcOk(StepOf(s, r, input), r)
  {
    UnstoredToken(s, r);
    hide Births, InRange, Vouched;
  }

  lemma RevokePcOk(s: State, r: nat, input: Input)
    requires Enabled(s, Step(r, input)) && PcOk(s, r) && Executes(s.reqs[r].req.pc, input)
    requires s.reqs[r].req.pc.Revoking?
    ensures PcOk(StepOf(s, r, input), r)
  {
    hide Record, Effect;
  }

  lemma StepPcOk(s: State, r: nat, input: Input)
    requires Inv(s) && Enabled(s, Step(r, input))
    requires Grows(s, StepOf(s, r, input))
    ensures PcOk(StepOf(s, r, input), r)
  {
    hide FlightOk, Grows, PcOk, ScriptOk, StepOf, Births, Mints, Fates, Deliveries, Mirrors, WellFormed, StoresOnce, CreatorsOk;
    AtRequest(s, r);
    var pc := s.reqs[r].req.pc;
    if input.Cancel? || !input.ok {
      EndPcOk(s, r, input);
    } else {
      match pc
      case Creating(_, _) => CreatePcOk(s, r, input);
      case Finding(_, _) => FindPcOk(s, r, input);
      case Consuming(_, _) => ConsumePcOk(s, r, input);
      case Resolving(_) => ResolvePcOk(s, r, input);
      case Storing(_, _, _, _, _) => StorePcOk(s, r, input);
      case Revoking(_) => RevokePcOk(s, r, input);
      case Stored(_, _) => AnswerPcOk(s, r, input);
      case _ =>
        if InWindow(pc) {
          IssuePcOk(s, r, input);
        } else {
          EntryPcOk(s, r, input);
        }
    }
  }

  // ---------------------------------Tables and tokens----------------------------------

  lemma StepTablesOk(s: State, r: nat, input: Input)
    requires Inv(s) && Enabled(s, Step(r, input)) && Grows(s, StepOf(s, r, input))
    ensures WellFormed(StepOf(s, r, input).db)
    ensures Mirrors(StepOf(s, r, input).ledger, StepOf(s, r, input).db)
  {
    hide Flights, Mints, Births, Fates, Deliveries, Grows, CreatorsOk, StoresOnce, Resume, Local;
    if Executes(s.reqs[r].req.pc, input) {
      var x := Pending(s.reqs[r].req.pc).value;
      StatementsKeepSchema(s.db, x);
      RecordMirrors(s.ledger, s.db, EntryOf(s, r));
    }
    hide WellFormed, Mirrors, Effect, Record;
  }

  /** A new entry of the ledger is what its request stores. */
  lemma NewLife(s: State, r: nat, input: Input, j: Uuid)
    requires Enabled(s, Step(r, input)) && Mirrors(s.ledger, s.db)
    requires j in StepOf(s, r, input).ledger && j !in s.ledger
    ensures var pc, origin := s.reqs[r].req.pc, OriginOf(s.reqs[r].req.call);
            && pc.Storing? && pc.refresh.jti == j && StepOf(s, r, input).reqs[r].req.pc.Stored?
            && StepOf(s, r, input).ledger[j] ==
               Life(TokenRow(pc.user.id, pc.expiresAt, pc.createdAt), r, origin, Root(s.ledger, j, origin), Depth(s.ledger, origin), Live)
  {
  }

  /** A request that stores has not stored before. */
  lemma StoringIsFirst(s: State, r: nat, j: Uuid)
    requires Births(s) && r in s.reqs && s.reqs[r].req.pc.Storing? && j in s.ledger
    ensures s.ledger[j].storedBy != r
  {
    assert BirthOk(s, j);
  }

  lemma StepStoresOnce(s: State, r: nat, input: Input)
    requires Births(s) && StoresOnce(s) && Enabled(s, Step(r, input)) && Grows(s, StepOf(s, r, input))
    requires Mirrors(s.ledger, s.db)
    ensures StoresOnce(StepOf(s, r, input))
  {
    var s' := StepOf(s, r, input);
    hide StepOf, Births, Mirrors, ReqsGrow, Enabled;
    forall i, j | i in s'.ledger && j in s'.ledger && s'.ledger[i].storedBy == s'.ledger[j].storedBy
      ensures i == j
    {
      if i !in s.ledger {
        NewLife(s, r, input, i);
      }
      if j !in s.ledger {
        NewLife(s, r, input, j);
      }
      if i in s.ledger {
        assert Ages(s.ledger[i], s'.ledger[i]);
        if j !in s.ledger {
          StoringIsFirst(s, r, i);
        }
      }
      if j in s.ledger {
        assert Ages(s.ledger[j], s'.ledger[j]);
        if i !in s.ledger {
          StoringIsFirst(s, r, j);
        }
      }
    }
  }

  lemma NewCreator(s: State, r: nat, input: Input, u: Uuid)
    requires Enabled(s, Step(r, input)) && PcOk(s, r)
    requires u in StepOf(s, r, input).db.users && u !in s.db.users
    ensures CreatorOk(StepOf(s, r, input), u)
  {
    hide Record;
  }

  lemma StepCreatorsOk(s: State, r: nat, input: Input)
    requires CreatorsOk(s) && Enabled(s, Step(r, input)) && PcOk(s, r) && Grows(s, StepOf(s, r, input))
    ensures CreatorsOk(StepOf(s, r, input))
  {
    var s' := StepOf(s, r, input);
    StepKeepsCreators(s, r, input);
    hide StepOf, Grows, CreatorOk, PcOk;
    forall u | u in s'.db.users
      ensures CreatorOk(s', u)
    {
      if u in s.db.users {
        CreatorKept(s, s', u);
      } else {
        NewCreator(s, r, input, u);
      }
    }
  }

  lemma StepMints(s: State, r: nat, input: Input)
    requires Enabled(s, Step(r, input)) && PcOk(s, r) && Grows(s, StepOf(s, r, input))
    requires Inherited(s, StepOf(s, r, input))
    ensures Mints(StepOf(s, r, input))
  {
    hide FlightOk, BirthOk, FateOk, DeliveredOk, ReqsGrow, LedgerGrows, PairOk, Record, Effect, Answer, Vouched, Resume, Enter;
    var s' := StepOf(s, r, input);
    var pc := s.reqs[r].req.pc;
    if 5 <= Stage(pc) <= 9 {
      UserKept(s, s', r);
    }
    forall i | i in s'.issued
      ensures MintOk(s', i)
    {
      if i !in s.issued {
        NewMint(s, r, input, i);
      }
    }
  }

  /** A new token names its user truthfully. */
  lemma NewMint(s: State, r: nat, input: Input, i: Uuid)
    requires Enabled(s, Step(r, input)) && PcOk(s, r) && Grows(s, StepOf(s, r, input))
    requires i in StepOf(s, r, input).issued && i !in s.issued
    ensures MintOk(StepOf(s, r, input), i)
  {
    hide ReqsGrow, LedgerGrows, PairOk, Record, Effect, Answer, Vouched, Enter;
    UserKept(s, StepOf(s, r, input), r);
  }

  /** A token stored now descends from the one its request consumed, if any. */
  lemma NewBirth(s: State, r: nat, input: Input, j: Uuid)
    requires Enabled(s, Step(r, input)) && PcOk(s, r) && Births(s) && Mirrors(s.ledger, s.db)
    requires Grows(s, StepOf(s, r, input))
    requires j in StepOf(s, r, input).ledger && j !in s.ledger
    ensures BirthOk(StepOf(s, r, input), j)
  {
    hide Births, Mirrors, NextReq, NextTables, Record, ReqsGrow, InRange, WriteOnce.Keeps;
    var s' := StepOf(s, r, input);
    NewLife(s, r, input, j);
    StepContinues(s, r, input);
    UserKept(s, s', r);
    if InRange(s', r) {
      InRangeBefore(s, s', r);
    }
    var origin := OriginOf(s.reqs[r].req.call);
    if origin.Rotated? {
      ParentRoot(s, origin.jti);
    }
  }

  lemma ParentRoot(s: State, j: Uuid)
    requires Births(s) && j in s.ledger
    ensures s.ledger[j].root in s.ledger
  {
    assert BirthOk(s, j);
  }

  lemma StepBirths(s: State, r: nat, input: Input)
    requires Enabled(s, Step(r, input)) && PcOk(s, r) && Births(s) && Mirrors(s.ledger, s.db)
    requires Grows(s, StepOf(s, r, input)) && Inherited(s, StepOf(s, r, input))
    ensures Births(StepOf(s, r, input))
  {
    var s' := StepOf(s, r, input);
    hide StepOf, FlightOk, BirthOk, FateOk, MintOk, PcOk, DeliveredOk, Grows;
    forall j | j in s'.ledger
      ensures BirthOk(s', j)
    {
      if j !in s.ledger {
        NewBirth(s, r, input, j);
      }
    }
  }

  /** A token whose fate changes was live; if it was spent, it was spent in time. */
  lemma NewFate(s: State, r: nat, input: Input, j: Uuid)
    requires Enabled(s, Step(r, input)) && PcOk(s, r) && ScriptOk(s.reqs[r]) && Mirrors(s.ledger, s.db)
    requires j in StepOf(s, r, input).ledger
    requires j in s.ledger ==> StepOf(s, r, input).ledger[j].fate != s.ledger[j].fate
    ensures FateOk(StepOf(s, r, input), j)
  {
    hide PairOk, Vouched, Enter;
  }

  lemma StepFates(s: State, r: nat, input: Input)
    requires Enabled(s, Step(r, input)) && PcOk(s, r) && ScriptOk(s.reqs[r]) && Mirrors(s.ledger, s.db)
    requires Grows(s, StepOf(s, r, input)) && Inherited(s, StepOf(s, r, input))
    ensures Fates(StepOf(s, r, input))
  {
    var s' := StepOf(s, r, input);
    hide StepOf, FlightOk, BirthOk, FateOk, MintOk, PcOk, DeliveredOk, Grows;
    forall j | j in s'.ledger
      ensures FateOk(s', j)
    {
      if j in s.ledger && s'.ledger[j].fate == s.ledger[j].fate {
      } else {
        NewFate(s, r, input, j);
      }
    }
  }

  /** What is delivered was issued, and its refresh token stored. */
  lemma NewDelivery(s: State, r: nat, input: Input, token: Token)
    requires Enabled(s, Step(r, input)) && FlightOk(s, r)
    requires token in StepOf(s, r, input).delivered && token !in s.delivered
    ensures DeliveredOk(StepOf(s, r, input), token)
  {
    hide ScriptOk, Vouched, Enter;
  }

  lemma StepDeliveries(s: State, r: nat, input: Input)
    requires Enabled(s, Step(r, input)) && FlightOk(s, r)
    requires Inherited(s, StepOf(s, r, input))
    ensures Deliveries(StepOf(s, r, input))
  {
    var s' := StepOf(s, r, input);
    hide StepOf, FlightOk, BirthOk, FateOk, MintOk, PcOk, DeliveredOk;
    forall token | token in s'.delivered
      ensures DeliveredOk(s', token)
    {
      if token !in s.delivered {
        NewDelivery(s, r, input, token);
      }
    }
  }

  lemma StepFlightOk(s: State, r: nat, input: Input)
    requires Inv(s) && Enabled(s, Step(r, input)) && Grows(s, StepOf(s, r, input))
    ensures FlightOk(StepOf(s, r, input), r)
  {
    var s' := StepOf(s, r, input);
    hide PcOk, ScriptOk, TablesOk, Births, Mints, Fates, Deliveries, NextReq;
    AtRequest(s, r);
    StepScriptOk(s, r, input);
    StepPcOk(s, r, input);
    assert Continues(s.reqs[r], s'.reqs[r]);
    forall q | q in s'.reqs[r].after
      ensures q in s'.reqs && Finished(s'.reqs[q].req.pc)
    {
      assert Continues(s.reqs[q], s'.reqs[q]);
    }
  }

  lemma StepKeepsInv(s: State, r: nat, input: Input)
    requires Inv(s) && Enabled(s, Step(r, input))
    ensures Inv(StepOf(s, r, input)) && Grows(s, StepOf(s, r, input))
  {
    var s' := StepOf(s, r, input);
    assert s'.boot == s.boot;
    assert forall q :: q in s'.reqs ==> q == r || (q in s.reqs && s'.reqs[q] == s.reqs[q]);
    hide StepOf, FlightOk, BirthOk, FateOk, MintOk, PcOk, ScriptOk, DeliveredOk, Grows, Mirrors, WellFormed, CreatorsOk, StoresOnce,
      WriteOnce.Agreed;
    AtRequest(s, r);
    StepGrows(s, r, input);
    Inherit(s, s');
    StepFlightOk(s, r, input);
    StepMints(s, r, input);
    StepBirths(s, r, input);
    StepFates(s, r, input);
    StepDeliveries(s, r, input);
    StepTablesOk(s, r, input);
    StepStoresOnce(s, r, input);
    StepCreatorsOk(s, r, input);
    StepKeepsIssued(s, r, input);
  }

  // ---------------------------------All actions----------------------------------

  lemma QuietGrows(s: State, s': State)
    requires s' == s.(clock := s'.clock, boot := s'.boot, servers := s'.servers)
    requires s.clock <= s'.clock && WriteOnce.Keeps(s.boot, s'.boot)
    requires forall i :: i in s.servers ==> i in s'.servers && s'.servers[i] == s.servers[i]
    ensures Grows(s, s')
  {
  }

  /** Time passes, servers start. */
  lemma QuietKeepsInv(s: State, s': State)
    requires Inv(s) && s' == s.(clock := s'.clock, boot := s'.boot, servers := s'.servers)
    requires s.clock <= s'.clock && WriteOnce.Keeps(s.boot, s'.boot) && WriteOnce.Agreed(s'.boot)
    requires forall i :: i in s.servers ==> i in s'.servers && s'.servers[i] == s.servers[i]
    requires forall i :: i in s'.boot.calls ==> s'.boot.calls[i].key == SIGNING_SECRET
    ensures Inv(s') && Grows(s, s')
  {
    hide FlightOk, BirthOk, FateOk, MintOk, DeliveredOk, CreatorOk, Grows, Mirrors, WellFormed, WriteOnce.Agreed, WriteOnce.Keeps;
    QuietGrows(s, s');
    Inherit(s, s');
    CreatorsKept(s, s');
  }

  lemma CreatorsKept(s: State, s': State)
    requires CreatorsOk(s) && Grows(s, s') && s'.db.users == s.db.users && s'.creators == s.creators
    ensures CreatorsOk(s')
  {
    hide Grows, CreatorOk;
    forall u | u in s.db.users
      ensures CreatorOk(s', u)
    {
      CreatorKept(s, s', u);
    }
  }

  lemma BeginGrows(s: State, r: nat, server: nat, call: Call)
    requires Enabled(s, Begin(r, server, call))
    ensures Grows(s, Apply(s, Begin(r, server, call)))
  {
    Unmoved(s);
    hide Continues, CanPresent;
  }

  /** A request comes in at a built server, which has the one secret. */
  lemma BeginFlightOk(s: State, r: nat, server: nat, call: Call)
    requires TablesOk(s) && Enabled(s, Begin(r, server, call))
    ensures FlightOk(Apply(s, Begin(r, server, call)), r)
  {
    hide WellFormed, Mirrors, CreatorsOk, StoresOnce;
  }

  lemma BeginKeepsInv(s: State, r: nat, server: nat, call: Call)
    requires Inv(s) && Enabled(s, Begin(r, server, call))
    ensures Inv(Apply(s, Begin(r, server, call))) && Grows(s, Apply(s, Begin(r, server, call)))
  {
    BeginGrows(s, r, server, call);
    BeginFlightOk(s, r, server, call);
    hide Grows, FlightOk;
    InheritAtBegin(s, Apply(s, Begin(r, server, call)), r);
  }

  lemma InheritAtBegin(s: State, s': State, r: nat)
    requires Inv(s) && Grows(s, s') && r !in s.reqs && r in s'.reqs && FlightOk(s', r)
    requires s' == s.(reqs := s.reqs[r := s'.reqs[r]])
    ensures Inv(s')
  {
    hide FlightOk, BirthOk, FateOk, MintOk, DeliveredOk, CreatorOk, Grows, Mirrors, WellFormed, WriteOnce.Agreed;
    Inherit(s, s');
    CreatorsKept(s, s');
  }

  /** One action of anyone. */
  lemma ActionKeepsInv(s: State, a: Action)
    requires Inv(s) && Enabled(s, a)
    ensures Inv(Apply(s, a)) && Grows(s, Apply(s, a))
  {
    var s' := Apply(s, a);
    hide FlightOk, BirthOk, FateOk, MintOk, DeliveredOk, CreatorOk, Grows, Mirrors, WellFormed, Inherited, StepOf;
    match a
    case Tick(_) => QuietKeepsInv(s, s');
    case Launch(server, _) =>
      WriteOnce.StepAgrees(s.boot, WriteOnce.Call(server, SIGNING_SECRET));
      QuietKeepsInv(s, s');
    case Boot(act) =>
      WriteOnce.StepAgrees(s.boot, act);
      QuietKeepsInv(s, s');
    case Begin(r, server, call) => BeginKeepsInv(s, r, server, call);
    case Step(r, input) => StepKeepsInv(s, r, input);
  }

  lemma GrowsReflexive(s: State)
    ensures Grows(s, s)
  {
    Unmoved(s);
  }

  /** The invariant holds along every run, and history only grows. */
  lemma {:induction false} RunKeepsInv(s: State, acts: seq<Action>)
    requires Inv(s) && Valid(s, acts)
    ensures Inv(Run(s, acts)) && Grows(s, Run(s, acts))
    decreases |acts|
  {
    hide Inv, Grows, Enabled, Apply;
    if acts == [] {
      GrowsReflexive(s);
    } else {
      ActionKeepsInv(s, acts[0]);
      RunKeepsInv(Apply(s, acts[0]), acts[1..]);
      GrowsTransitive(s, Apply(s, acts[0]), Run(s, acts));
    }
  }

  lemma Parts(s: State)
    requires Inv(s)
    ensures TablesOk(s) && Flights(s) && Mints(s) && Births(s) && Fates(s) && Deliveries(s)
  {
  }

  /** Every state a run can reach. */
  ghost predicate Reachable(s: State) {
    exists acts :: Valid(INITIAL, acts) && Run(INITIAL, acts) == s
  }

  lemma ReachableInv(s: State)
    requires Reachable(s)
    ensures Inv(s)
  {
    var acts :| Valid(INITIAL, acts) && Run(INITIAL, acts) == s;
    InitialInv();
    RunKeepsInv(INITIAL, acts);
  }

  // ---------------------------------Longer runs----------------------------------

  lemma Extend(s: State, acts: seq<Action>, a: Action)
    requires Valid(s, acts) && Enabled(Run(s, acts), a)
    ensures Valid(s, acts + [a]) && Run(s, acts + [a]) == Apply(Run(s, acts), a)
    decreases |acts|
  {
    hide Enabled, Apply;
    if acts == [] {
      assert acts + [a] == [a] && [a][1..] == [];
    } else {
      assert (acts + [a])[1..] == acts[1..] + [a];
      Extend(Apply(s, acts[0]), acts[1..], a);
    }
  }

  lemma {:induction false} Joins(s: State, a: seq<Action>, b: seq<Action>)
    requires Valid(s, a) && Valid(Run(s, a), b)
    ensures Valid(s, a + b) && Run(s, a + b) == Run(Run(s, a), b)
    decreases |a|
  {
    hide Enabled, Apply;
    if a == [] {
      assert a + b == b;
    } else {
      assert (a + b)[1..] == a[1..] + b;
      Joins(Apply(s, a[0]), a[1..], b);
    }
  }

  lemma StaysReachable(s: State, acts: seq<Action>)
    requires Reachable(s) && Valid(s, acts)
    ensures Reachable(Run(s, acts))
  {
    var before :| Valid(INITIAL, before) && Run(INITIAL, before) == s;
    Joins(INITIAL, before, acts);
  }
}
