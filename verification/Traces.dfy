/** What the statements of a request say of it, and who was done before it began. */
module Traces {
  import opened AuthCore
  import opened AuthDb
  import opened Machine
  import opened Ledger
  import opened Protocol
  import opened Invariant
  import opened Steps
  import WriteOnce

  /** Tokens are stored by their storer, and tokens of a user deleted by a logout that
      presents one of them. */
  ghost predicate OwnStmt(s: State, r: nat, y: Stmt)
    requires r in s.reqs
  {
    var req := s.reqs[r].req;
    && (y.InsertToken? ==> StoredAs(s, r, y.jti))
    && (y.DeleteTokensOf? ==>
          req.call.Logout? && req.call.token.Jwt? && Signed(req, req.call.token.claims) && req.call.token.claims.sub == y.userId)
  }

  /** A refresh that has run a statement has spent what it presented, or was refused on it. */
  ghost predicate Decided(s: State, r: nat)
    requires r in s.reqs
  {
    var req := s.reqs[r].req;
    req.call.Refresh? && req.ran != [] ==>
      && req.call.token.Jwt? && req.call.token.claims.jti in s.ledger
      && req.ran[0].DeleteToken? && req.ran[0].jti == req.call.token.claims.jti
      && (s.ledger[req.call.token.claims.jti].fate == Spent(r)
          || (req.pc == Done(Rejected(InvalidRefreshToken)) && |req.ran| == 1))
  }

  /** Who stored the presented token was done with it before. */
  ghost predicate StorerBefore(s: State, r: nat)
    requires r in s.reqs
  {
    var req := s.reqs[r].req;
    (req.call.Refresh? || req.call.Logout?) && req.call.token.Jwt? && Signed(req, req.call.token.claims) ==>
      req.call.token.claims.jti in s.ledger && s.ledger[req.call.token.claims.jti].storedBy in s.reqs[r].after
  }

  /** Who was done before a request that was done before this one was done before this one. */
  ghost predicate AfterIsClosed(s: State, r: nat)
    requires r in s.reqs
  {
    forall q :: q in s.reqs[r].after ==> q in s.reqs && s.reqs[q].after <= s.reqs[r].after
  }

  ghost predicate FlightTraced(s: State, r: nat)
    requires r in s.reqs
  {
    && (forall y :: y in s.reqs[r].req.ran ==> OwnStmt(s, r, y))
    && Decided(s, r) && StorerBefore(s, r) && AfterIsClosed(s, r)
  }

  /** The storer of a delivered refresh token answered with it. */
  ghost predicate Answered(s: State, token: Token) {
    token.Jwt? && token.claims.kind == TokenKind.Refresh ==>
      && token.claims.jti in s.ledger && s.ledger[token.claims.jti].storedBy in s.reqs
      && var pc := s.reqs[s.ledger[token.claims.jti].storedBy].req.pc;
         pc.Done? && pc.outcome.Tokens? && pc.outcome.refresh == token
  }

  /** The first statement of a creator inserted its user. */
  ghost predicate CreatorRan(s: State, u: Uuid)
    requires u in s.creators
  {
    && s.creators[u] in s.reqs
    && var ran := s.reqs[s.creators[u]].req.ran; ran != [] && ran[0].InsertUser? && ran[0].id == u
  }

  /** A stored token is in the statements of its storer. */
  ghost predicate StorerRan(s: State, j: Uuid)
    requires j in s.ledger
  {
    && s.ledger[j].storedBy in s.reqs
    && exists y :: y in s.reqs[s.ledger[j].storedBy].req.ran && y.InsertToken? && y.jti == j
  }

  ghost predicate LogRan(s: State) {
    forall i :: 0 <= i < |s.log| ==> s.log[i].req in s.reqs && s.log[i].stmt in s.reqs[s.log[i].req].req.ran
  }

  ghost predicate AllTraced(s: State) {
    && (forall r {:trigger FlightTraced(s, r)} :: r in s.reqs ==> FlightTraced(s, r))
    && (forall token {:trigger Answered(s, token)} :: token in s.delivered ==> Answered(s, token))
    && (forall u {:trigger CreatorRan(s, u)} :: u in s.creators ==> CreatorRan(s, u))
    && (forall j {:trigger StorerRan(s, j)} :: j in s.ledger ==> StorerRan(s, j))
    && LogRan(s)
  }

  // ---------------------------------Growth----------------------------------

  lemma TracedKept(s: State, s': State, r: nat)
    requires Grows(s, s') && r in s.reqs && r in s'.reqs && s'.reqs[r] == s.reqs[r] && FlightTraced(s, r)
    ensures FlightTraced(s', r)
  {
    var req := s.reqs[r].req;
    forall y | y in req.ran
      ensures OwnStmt(s', r, y)
    {
      assert OwnStmt(s, r, y);
    }
    forall q | q in s.reqs[r].after
      ensures q in s'.reqs && s'.reqs[q].after <= s'.reqs[r].after
    {
      assert Continues(s.reqs[q], s'.reqs[q]);
    }
    hide WriteOnce.Keeps, ReqsGrow, AfterIsClosed;
  }

  lemma AnsweredKept(s: State, s': State, token: Token)
    requires Grows(s, s') && Answered(s, token)
    ensures Answered(s', token)
  {
    if token.Jwt? && token.claims.kind == TokenKind.Refresh {
      assert Continues(s.reqs[s.ledger[token.claims.jti].storedBy], s'.reqs[s.ledger[token.claims.jti].storedBy]);
    }
    hide WriteOnce.Keeps, ReqsGrow;
  }

  lemma CreatorRanKept(s: State, s': State, u: Uuid)
    requires Grows(s, s') && u in s.creators && CreatorRan(s, u)
    ensures u in s'.creators && CreatorRan(s', u)
  {
    assert Continues(s.reqs[s.creators[u]], s'.reqs[s.creators[u]]);
    hide WriteOnce.Keeps, ReqsGrow, LedgerGrows;
  }

  lemma StorerRanKept(s: State, s': State, j: Uuid)
    requires Grows(s, s') && j in s.ledger && StorerRan(s, j)
    ensures j in s'.ledger && StorerRan(s', j)
  {
    assert Continues(s.reqs[s.ledger[j].storedBy], s'.reqs[s.ledger[j].storedBy]);
    assert Ages(s.ledger[j], s'.ledger[j]);
    hide WriteOnce.Keeps, ReqsGrow, LedgerGrows;
  }

  // ---------------------------------Steps----------------------------------

  /** What a step adds to the statements its request has run. */
  lemma StepRuns(s: State, r: nat, input: Input)
    requires Enabled(s, Step(r, input)) && PcOk(s, r)
    ensures r in StepOf(s, r, input).reqs
    ensures var f, f' := s.reqs[r], StepOf(s, r, input).reqs[r];
            && f'.req.ran == f.req.ran + (if Executes(f.req.pc, input) then [Pending(f.req.pc).value] else [])
            && f'.req.call == f.req.call && f'.req.cfg == f.req.cfg && f'.after == f.after
  {
    StepContinues(s, r, input);
    StepsAreProgress(s.db, s.reqs[r].req, input);
    hide PcOk;
  }

  lemma NewOwnStmt(s: State, r: nat, input: Input)
    requires Inv(s) && Enabled(s, Step(r, input)) && Executes(s.reqs[r].req.pc, input)
    ensures OwnStmt(StepOf(s, r, input), r, Pending(s.reqs[r].req.pc).value)
  {
    AtRequest(s, r) by { Parts(s); }
    StepRuns(s, r, input);
    if s.reqs[r].req.pc.Storing? {
      StorePcOk(s, r, input) by { Parts(s); }
      StoredIsOwn(StepOf(s, r, input), r);
      NextIsStored(s, r, input);
      hide PcOk;
    }
    hide Inv, StepOf, FlightOk, ScriptOk, Vouched;
  }

  lemma StoredIsOwn(s: State, r: nat)
    requires r in s.reqs && PcOk(s, r) && s.reqs[r].req.pc.Stored?
    ensures StoredAs(s, r, s.reqs[r].req.pc.refresh.jti)
  {
  }

  lemma NextIsStored(s: State, r: nat, input: Input)
    requires Enabled(s, Step(r, input)) && Executes(s.reqs[r].req.pc, input) && s.reqs[r].req.pc.Storing?
    requires StepOf(s, r, input).reqs[r].req.pc.Stored?
    ensures StepOf(s, r, input).reqs[r].req.pc.refresh == s.reqs[r].req.pc.refresh
  {
    hide Answer, Effect, Record;
  }

  lemma NewlyDecided(s: State, r: nat, input: Input)
    requires Enabled(s, Step(r, input)) && Inv(s) && Inv(StepOf(s, r, input)) && Grows(s, StepOf(s, r, input))
    requires Decided(s, r)
    ensures Decided(StepOf(s, r, input), r)
  {
    hide Inv, FlightOk, ReqsGrow, WriteOnce.Keeps, StepOf, Executes;
    AtRequest(s, r) by { Parts(s); }
    StepRuns(s, r, input);
    AtRequest(StepOf(s, r, input), r) by { Parts(StepOf(s, r, input)); }
    var f := s.reqs[r];
    if f.req.call.Refresh? && Executes(f.req.pc, input) {
      if f.req.ran == [] {
        FirstOfRefresh(s, r, input);
      }
    }
    hide ScriptOk, PcOk;
  }

  lemma FirstOfRefresh(s: State, r: nat, input: Input)
    requires Enabled(s, Step(r, input)) && Inv(s) && Inv(StepOf(s, r, input)) && Executes(s.reqs[r].req.pc, input)
    requires s.reqs[r].req.call.Refresh? && s.reqs[r].req.ran == []
    ensures Decided(StepOf(s, r, input), r)
  {
    Parts(s);
    Parts(StepOf(s, r, input));
    AtRequest(s, r);
    AtRequest(StepOf(s, r, input), r);
    PresentedToken(s, r);
    StatementStep(s, r, input);
    StepRuns(s, r, input);
    hide Inv, Flights, Mints, Births, Fates, Deliveries, TablesOk, FlightOk, StepOf, VerifyKind;
  }

  lemma ActorTraced(s: State, r: nat, input: Input)
    requires Enabled(s, Step(r, input)) && Inv(s) && Inv(StepOf(s, r, input)) && Grows(s, StepOf(s, r, input))
    requires FlightTraced(s, r)
    ensures FlightTraced(StepOf(s, r, input), r)
  {
    hide Inv, StepOf, Executes, ReqsGrow, WriteOnce.Keeps, Decided;
    var s' := StepOf(s, r, input);
    AtRequest(s, r) by { Parts(s); }
    StepRuns(s, r, input);
    NewlyDecided(s, r, input);
    hide PcOk, ScriptOk, FlightOk;
    forall q | q in s.reqs[r].after
      ensures q in s'.reqs && s'.reqs[q].after <= s'.reqs[r].after
    {
      OthersAfter(s, s', q);
    }
    forall y | y in s'.reqs[r].req.ran
      ensures OwnStmt(s', r, y)
    {
      if y in s.reqs[r].req.ran {
        assert OwnStmt(s, r, y);
      } else {
        NewOwnStmt(s, r, input);
      }
    }
  }

  lemma OthersAfter(s: State, s': State, q: nat)
    requires Grows(s, s') && q in s.reqs
    ensures q in s'.reqs && s'.reqs[q].after == s.reqs[q].after
  {
    assert Continues(s.reqs[q], s'.reqs[q]);
  }

  lemma NewlyAnswered(s: State, r: nat, input: Input, token: Token)
    requires Enabled(s, Step(r, input)) && Inv(s) && Inv(StepOf(s, r, input))
    requires token in StepOf(s, r, input).delivered && token !in s.delivered
    ensures Answered(StepOf(s, r, input), token)
  {
    Parts(StepOf(s, r, input));
    AtRequest(StepOf(s, r, input), r);
    hide Inv, Flights, Mints, Births, Fates, Deliveries, TablesOk, FlightOk, ScriptOk, Vouched, Record, Effect, Answer, Enter;
  }

  lemma NewlyCreated(s: State, r: nat, input: Input, u: Uuid)
    requires Inv(s) && Enabled(s, Step(r, input)) && u in StepOf(s, r, input).creators
    requires u !in s.creators || StepOf(s, r, input).creators[u] != s.creators[u]
    ensures CreatorRan(StepOf(s, r, input), u)
  {
    Parts(s);
    AtRequest(s, r);
    StepRuns(s, r, input);
    hide Inv, Flights, Mints, Births, Fates, Deliveries, TablesOk, FlightOk, PcOk, Record, Effect;
  }

  lemma NewlyStored(s: State, r: nat, input: Input, j: Uuid)
    requires Inv(s) && Enabled(s, Step(r, input)) && j in StepOf(s, r, input).ledger && j !in s.ledger
    ensures StorerRan(StepOf(s, r, input), j)
  {
    Parts(s);
    AtRequest(s, r);
    StepRuns(s, r, input);
    hide Inv, Flights, Mints, Births, Fates, Deliveries, FlightOk, PcOk, ScriptOk;
    NewLife(s, r, input, j);
    hide TablesOk, Record, Effect, NextReq, NextTables;
  }

  lemma StepLogRan(s: State, r: nat, input: Input)
    requires LogRan(s) && Enabled(s, Step(r, input)) && PcOk(s, r)
    ensures LogRan(StepOf(s, r, input))
  {
    StepRuns(s, r, input);
    var s' := StepOf(s, r, input);
    assert forall q :: q in s.reqs && q != r ==> s'.reqs[q] == s.reqs[q];
    forall i | 0 <= i < |s'.log|
      ensures s'.log[i].req in s'.reqs && s'.log[i].stmt in s'.reqs[s'.log[i].req].req.ran
    {
      if i < |s.log| {
        assert s'.log[i] == s.log[i];
      }
    }
    hide PcOk, NextReq, NextTables, Record;
  }

  lemma StepTraced(s: State, r: nat, input: Input)
    requires Inv(s) && AllTraced(s) && Enabled(s, Step(r, input))
    ensures AllTraced(StepOf(s, r, input))
  {
    hide Inv, StepOf, FlightTraced, Answered, CreatorRan, StorerRan, LogRan, Grows;
    var s' := StepOf(s, r, input);
    StepKeepsInv(s, r, input);
    forall q | q in s'.reqs
      ensures FlightTraced(s', q)
    {
      assert q in s.reqs && (q != r ==> s'.reqs[q] == s.reqs[q]) by { OthersInFlight(s, r, input, q); }
      if q == r {
        ActorTraced(s, r, input);
      } else {
        TracedKept(s, s', q);
      }
    }
    forall token | token in s'.delivered
      ensures Answered(s', token)
    {
      if token in s.delivered {
        AnsweredKept(s, s', token);
      } else {
        NewlyAnswered(s, r, input, token);
      }
    }
    forall u | u in s'.creators
      ensures CreatorRan(s', u)
    {
      if u in s.creators && s'.creators[u] == s.creators[u] {
        CreatorRanKept(s, s', u);
      } else {
        NewlyCreated(s, r, input, u);
      }
    }
    forall j | j in s'.ledger
      ensures StorerRan(s', j)
    {
      if j in s.ledger {
        StorerRanKept(s, s', j);
      } else {
        NewlyStored(s, r, input, j);
      }
    }
    StepLogRan(s, r, input) by { Parts(s); AtRequest(s, r); }
  }

  lemma OthersInFlight(s: State, r: nat, input: Input, q: nat)
    requires Enabled(s, Step(r, input)) && q in StepOf(s, r, input).reqs
    ensures q in s.reqs && (q != r ==> StepOf(s, r, input).reqs[q] == s.reqs[q])
  {
  }

  lemma AfterFinished(s: State, q: nat)
    requires Inv(s) && q in s.reqs
    ensures s.reqs[q].after <= FinishedRequests(s)
  {
    assert FlightOk(s, q);
    hide Inv, PcOk, ScriptOk;
  }

  lemma BeginsAfterStorer(s: State, r: nat, server: nat, call: Call)
    requires Inv(s) && AllTraced(s) && Enabled(s, Begin(r, server, call))
    ensures StorerBefore(Apply(s, Begin(r, server, call)), r) && AfterIsClosed(Apply(s, Begin(r, server, call)), r)
  {
    var s' := Apply(s, Begin(r, server, call));
    forall q | q in s'.reqs[r].after
      ensures q in s'.reqs && s'.reqs[q].after <= s'.reqs[r].after
    {
      assert s'.reqs[q] == s.reqs[q];
      AfterFinished(s, q);
    }
    if (call.Refresh? || call.Logout?) && call.token in s.delivered {
      assert Answered(s, call.token);
    }
    hide Inv, FlightTraced, CreatorRan, StorerRan, LogRan;
  }

  lemma BeginLogRan(s: State, r: nat, server: nat, call: Call)
    requires LogRan(s) && Enabled(s, Begin(r, server, call))
    ensures LogRan(Apply(s, Begin(r, server, call)))
  {
    hide CanPresent, ServerConfig, Built;
  }

  lemma BeginTraced(s: State, r: nat, server: nat, call: Call)
    requires Inv(s) && AllTraced(s) && Enabled(s, Begin(r, server, call))
    ensures AllTraced(Apply(s, Begin(r, server, call)))
  {
    var s' := Apply(s, Begin(r, server, call));
    BeginGrows(s, r, server, call);
    BeginsAfterStorer(s, r, server, call);
    BeginLogRan(s, r, server, call);
    hide Inv, Grows, Answered, CreatorRan, StorerRan, StorerBefore, AfterIsClosed, OwnStmt, Enabled, ServerConfig, LogRan;
    forall q | q in s.reqs
      ensures FlightTraced(s', q)
    {
      TracedKept(s, s', q);
    }
    forall token | token in s.delivered
      ensures Answered(s', token)
    {
      AnsweredKept(s, s', token);
    }
    forall u | u in s.creators
      ensures CreatorRan(s', u)
    {
      CreatorRanKept(s, s', u);
    }
    forall j | j in s.ledger
      ensures StorerRan(s', j)
    {
      StorerRanKept(s, s', j);
    }
  }

  lemma QuietTraced(s: State, s': State)
    requires AllTraced(s) && s' == s.(clock := s'.clock, boot := s'.boot, servers := s'.servers)
    ensures AllTraced(s')
  {
    forall r | r in s.reqs
      ensures FlightTraced(s', r)
    {
      assert FlightTraced(s, r);
      assert forall y :: y in s.reqs[r].req.ran ==> OwnStmt(s, r, y);
    }
    forall token | token in s.delivered
      ensures Answered(s', token)
    {
      assert Answered(s, token);
    }
    forall u | u in s.creators
      ensures CreatorRan(s', u)
    {
      assert CreatorRan(s, u);
    }
    forall j | j in s.ledger
      ensures StorerRan(s', j)
    {
      assert StorerRan(s, j);
    }
  }

  lemma ActionTraced(s: State, a: Action)
    requires Inv(s) && AllTraced(s) && Enabled(s, a)
    ensures AllTraced(Apply(s, a))
  {
    hide Inv, AllTraced, StepOf;
    match a
    case Step(r, input) => StepTraced(s, r, input);
    case Begin(r, server, call) => BeginTraced(s, r, server, call);
    case _ => QuietTraced(s, Apply(s, a));
  }

  lemma {:induction false} RunTraced(s: State, acts: seq<Action>)
    requires Inv(s) && AllTraced(s) && Valid(s, acts)
    ensures AllTraced(Run(s, acts))
    decreases |acts|
  {
    hide Inv, AllTraced, Enabled, Apply;
    if acts != [] {
      ActionTraced(s, acts[0]);
      ActionKeepsInv(s, acts[0]);
      RunTraced(Apply(s, acts[0]), acts[1..]);
    }
  }

  /** Every reachable state is traced. */
  lemma ReachableTraced(s: State)
    requires Reachable(s)
    ensures AllTraced(s)
  {
    var acts :| Valid(INITIAL, acts) && Run(INITIAL, acts) == s;
    InitialInv();
    RunTraced(INITIAL, acts);
  }
}
