/** What holds of tokens and sessions in every state any run can reach. */
module Sessions {
  import opened AuthCore
  import opened AuthDb
  import opened Machine
  import opened Ledger
  import opened Protocol
  import opened Invariant
  import opened Steps
  import opened Traces
  import WriteOnce

  // ---------------------------------Single use----------------------------------

  /** The refresh `r` passed its consume, and was not failed or dropped since. */
  ghost predicate PassedConsume(s: State, r: nat) {
    && r in s.reqs && s.reqs[r].req.call.Refresh?
    && var pc := s.reqs[r].req.pc;
       InWindow(pc) || pc.Stored? || (pc.Done? && pc.outcome.Tokens?)
  }

  /** Whoever passed the consume spent the token it presented. */
  lemma ConsumerSpent(s: State, r: nat)
    requires Inv(s) && PassedConsume(s, r)
    ensures var token := s.reqs[r].req.call.token;
            && token.Jwt? && token.claims.jti in s.ledger && s.ledger[token.claims.jti].fate == Spent(r)
            && token.claims.kind == TokenKind.Refresh && token in s.delivered
            && s.ledger[token.claims.jti].row.userId == token.claims.sub
  {
    var req := s.reqs[r].req;
    hide TablesOk, Births, Fates, Deliveries, MintOk;
    assert FlightOk(s, r);
    if !InWindow(req.pc) {
      var a := if req.pc.Stored? then req.pc.access else req.pc.outcome.access.claims;
      assert MintOk(s, a.jti);
      MintVouched(s, a.jti);
    }
    SpentTokenOwner(s, r);
  }

  lemma MintVouched(s: State, i: Uuid)
    requires i in s.issued && MintOk(s, i)
    ensures Vouched(s, s.issued[i].req, s.issued[i].claims.sub)
  {
  }

  lemma SpentTokenOwner(s: State, r: nat)
    requires Inv(s) && r in s.reqs && s.reqs[r].req.call.Refresh? && s.reqs[r].req.ran != []
    ensures var token := s.reqs[r].req.call.token;
            && token.Jwt? && token in s.delivered && token.claims.kind == TokenKind.Refresh
            && token.claims.jti in s.ledger && s.ledger[token.claims.jti].row.userId == token.claims.sub
  {
    hide TablesOk, PcOk;
    assert FlightOk(s, r);
    PresentedToken(s, r);
  }

  /** Entry `i` of the log is a successful consume of `jti`. */
  predicate ConsumedAt(s: State, i: int, jti: Uuid) {
    0 <= i < |s.log| && s.log[i].stmt.DeleteToken? && s.log[i].stmt.jti == jti && s.log[i].reply == Affected(1)
  }

  /** The log tells who spent `j`. */
  ghost predicate SpentInLog(s: State, j: Uuid)
    requires j in s.ledger
  {
    s.ledger[j].fate.Spent? ==> exists i :: ConsumedAt(s, i, j) && s.log[i].req == s.ledger[j].fate.req
  }

  ghost predicate ConsumesSpend(s: State) {
    && (forall i, j :: ConsumedAt(s, i, j) ==> j in s.ledger && s.ledger[j].fate == Spent(s.log[i].req))
    && (forall i, k, j :: ConsumedAt(s, i, j) && ConsumedAt(s, k, j) ==> i == k)
    && (forall j {:trigger SpentInLog(s, j)} :: j in s.ledger ==> SpentInLog(s, j))
  }

  /** A consume that succeeds now is of a live token, and spends it. */
  lemma NewConsume(s: State, a: Action, i: int, j: Uuid)
    requires Mirrors(s.ledger, s.db) && Enabled(s, a) && ConsumedAt(Apply(s, a), i, j) && i >= |s.log|
    ensures i == |s.log| && j in s.ledger && s.ledger[j].fate.Live?
    ensures j in Apply(s, a).ledger && Apply(s, a).ledger[j].fate == Spent(Apply(s, a).log[i].req)
  {
    hide Effect, NextReq, Pending;
  }

  /** What is spent now is spent by the consume that is logged now. */
  lemma NewSpent(s: State, a: Action, j: Uuid)
    requires Mirrors(s.ledger, s.db) && Enabled(s, a) && j in Apply(s, a).ledger && Apply(s, a).ledger[j].fate.Spent?
    requires j !in s.ledger || Apply(s, a).ledger[j].fate != s.ledger[j].fate
    ensures ConsumedAt(Apply(s, a), |s.log|, j) && Apply(s, a).log[|s.log|].req == Apply(s, a).ledger[j].fate.req
  {
    hide Effect, NextReq, Pending;
  }

  lemma ActionLogsSpent(s: State, a: Action, j: Uuid)
    requires Inv(s) && ConsumesSpend(s) && Enabled(s, a) && j in Apply(s, a).ledger
    requires s.log <= Apply(s, a).log
    ensures SpentInLog(Apply(s, a), j)
  {
    var s' := Apply(s, a);
    assert Mirrors(s.ledger, s.db);
    hide Inv, Apply, Mirrors;
    if s'.ledger[j].fate.Spent? {
      if j in s.ledger && s'.ledger[j].fate == s.ledger[j].fate {
        assert SpentInLog(s, j);
        var i :| ConsumedAt(s, i, j) && s.log[i].req == s.ledger[j].fate.req;
        assert s'.log[i] == s.log[i];
        assert ConsumedAt(s', i, j);
      } else {
        NewSpent(s, a, j);
      }
    }
  }

  /** An older consume is one of before. */
  lemma OldConsume(s: State, s': State, i: int, j: Uuid)
    requires ConsumesSpend(s) && s.log <= s'.log && LedgerGrows(s, s') && ConsumedAt(s', i, j) && i < |s.log|
    ensures ConsumedAt(s, i, j)
    ensures j in s'.ledger && s'.ledger[j].fate == Spent(s'.log[i].req)
  {
    assert s'.log[i] == s.log[i];
    assert ConsumedAt(s, i, j);
    LifeAges(s, s', j);
    hide LedgerGrows;
  }

  lemma StepFacts(s: State, s': State)
    requires Inv(s) && Grows(s, s')
    ensures Mirrors(s.ledger, s.db) && LedgerGrows(s, s') && s.log <= s'.log
  {
    hide Flights, Mints, Births, Fates, Deliveries, LedgerGrows, ReqsGrow, WriteOnce.Keeps, Mirrors;
  }

  lemma ActionSpends(s: State, a: Action)
    requires Inv(s) && ConsumesSpend(s) && Enabled(s, a)
    ensures ConsumesSpend(Apply(s, a))
  {
    hide Inv, Apply, Enabled, Grows, SpentInLog;
    ActionKeepsInv(s, a);
    var s' := Apply(s, a);
    StepFacts(s, s');
    forall i, j | ConsumedAt(s', i, j)
      ensures i < |s.log| ==> ConsumedAt(s, i, j)
      ensures i >= |s.log| ==> i == |s.log| && j in s.ledger && s.ledger[j].fate.Live?
      ensures j in s'.ledger && s'.ledger[j].fate == Spent(s'.log[i].req)
    {
      hide LedgerGrows, Mirrors;
      if i < |s.log| {
        OldConsume(s, s', i, j);
      } else {
        NewConsume(s, a, i, j);
      }
    }
    forall j | j in s'.ledger
      ensures SpentInLog(s', j)
    {
      ActionLogsSpent(s, a, j);
    }
  }

  lemma LifeAges(s: State, s': State, j: Uuid)
    requires LedgerGrows(s, s') && j in s.ledger
    ensures j in s'.ledger && Ages(s.ledger[j], s'.ledger[j])
  {
  }

  lemma {:induction false} RunSpends(s: State, acts: seq<Action>)
    requires Inv(s) && ConsumesSpend(s) && Valid(s, acts)
    ensures ConsumesSpend(Run(s, acts))
    decreases |acts|
  {
    hide Inv, ConsumesSpend, Enabled, Apply;
    if acts != [] {
      ActionSpends(s, acts[0]);
      ActionKeepsInv(s, acts[0]);
      RunSpends(Apply(s, acts[0]), acts[1..]);
    }
  }

  lemma ReachableSpends(s: State)
    requires Reachable(s)
    ensures ConsumesSpend(s)
  {
    var acts :| Valid(INITIAL, acts) && Run(INITIAL, acts) == s;
    InitialInv();
    RunSpends(INITIAL, acts);
  }

  /** A token has been spent by a request exactly if the log holds that request's successful
      consume of it; and no history holds two, even if the first consumer was failed or
      dropped before it could answer. */
  lemma ConsumedOnce(s: State, jti: Uuid)
    requires Reachable(s)
    ensures forall r :: jti in s.ledger && s.ledger[jti].fate == Spent(r) <==>
              exists i :: ConsumedAt(s, i, jti) && s.log[i].req == r
    ensures forall i, k :: ConsumedAt(s, i, jti) && ConsumedAt(s, k, jti) ==> i == k
  {
    ReachableSpends(s);
    if jti in s.ledger {
      assert SpentInLog(s, jti);
    }
    hide Reachable;
  }

  /** The refresh was told INVALID_REFRESH_TOKEN after one statement, which found no row. */
  ghost predicate ToldInvalid(s: State, r: nat) {
    && r in s.reqs && s.reqs[r].req.pc == Done(Rejected(InvalidRefreshToken)) && |s.reqs[r].req.ran| == 1
    && forall i :: 0 <= i < |s.log| && s.log[i].req == r ==> s.log[i].stmt.DeleteToken? && s.log[i].reply == Affected(0)
  }

  /** A consume affects no row or one. */
  ghost predicate RepliesFit(s: State) {
    forall i :: 0 <= i < |s.log| && s.log[i].stmt.DeleteToken? ==> s.log[i].reply in {Affected(0), Affected(1)}
  }

  lemma {:induction false} RunReplies(s: State, acts: seq<Action>)
    requires RepliesFit(s) && Valid(s, acts)
    ensures RepliesFit(Run(s, acts))
    decreases |acts|
  {
    if acts != [] {
      ActionReplies(s, acts[0]);
      hide RepliesFit, Enabled, Apply;
      RunReplies(Apply(s, acts[0]), acts[1..]);
    }
  }

  lemma ActionReplies(s: State, a: Action)
    requires RepliesFit(s) && Enabled(s, a)
    ensures RepliesFit(Apply(s, a))
  {
    hide NextReq, NextTables, Record, Pending;
  }

  lemma ReachableReplies(s: State)
    requires Reachable(s)
    ensures RepliesFit(s)
  {
    var acts :| Valid(INITIAL, acts) && Run(INITIAL, acts) == s;
    RunReplies(INITIAL, acts);
  }

  lemma NonSpenderRefused(s: State, r: nat)
    requires AllTraced(s) && ConsumesSpend(s) && RepliesFit(s)
    requires r in s.reqs && s.reqs[r].req.call.Refresh? && s.reqs[r].req.ran != [] && s.reqs[r].req.call.token.Jwt?
    requires var j := s.reqs[r].req.call.token.claims.jti; j in s.ledger && s.ledger[j].fate != Spent(r)
    ensures ToldInvalid(s, r)
  {
    assert FlightTraced(s, r);
    var j, ran := s.reqs[r].req.call.token.claims.jti, s.reqs[r].req.ran;
    forall i | 0 <= i < |s.log| && s.log[i].req == r
      ensures s.log[i].stmt.DeleteToken? && s.log[i].reply == Affected(0)
    {
      assert s.log[i].stmt == ran[0];
      assert s.log[i].reply == Affected(1) ==> ConsumedAt(s, i, j);
    }
  }

  /** Single use: of all refreshes presenting one token, at any time and in any order, at
      most one passes the consume, so at most one gets new tokens. And of any two that have
      run a statement, whatever became of them, one was refused and changed nothing. */
  lemma SingleUse(s: State, q: nat, r: nat)
    requires Reachable(s) && q != r && q in s.reqs && r in s.reqs
    requires s.reqs[q].req.call.Refresh? && s.reqs[r].req.call.Refresh?
    requires OriginOf(s.reqs[q].req.call) == OriginOf(s.reqs[r].req.call)
    ensures !PassedConsume(s, q) || !PassedConsume(s, r)
    ensures s.reqs[q].req.ran != [] && s.reqs[r].req.ran != [] ==> ToldInvalid(s, q) || ToldInvalid(s, r)
  {
    ReachableInv(s);
    if PassedConsume(s, q) && PassedConsume(s, r) {
      ConsumerSpent(s, q);
      ConsumerSpent(s, r);
      assert false;
    }
    ReachableTraced(s);
    ReachableSpends(s);
    ReachableReplies(s);
    assert FlightTraced(s, q) && FlightTraced(s, r);
    hide Reachable, Inv, FlightTraced, ToldInvalid, PassedConsume, ConsumesSpend, RepliesFit, AllTraced;
    if s.reqs[q].req.ran != [] && s.reqs[r].req.ran != [] {
      if s.ledger[s.reqs[q].req.call.token.claims.jti].fate == Spent(q) {
        NonSpenderRefused(s, r);
      } else {
        NonSpenderRefused(s, q);
      }
    }
  }

  /** What the consume of a refresh decides, at any state: the request goes on and the token
      is its own, exactly if the token is live and the time bound before its expiry.
      Otherwise, be it a replay or late, it is told so and changes nothing. */
  lemma ConsumeDecides(s: State, r: nat, input: Input)
    requires Reachable(s) && Enabled(s, Step(r, input)) && input.Go? && input.ok
    requires s.reqs[r].req.pc.Consuming?
    ensures var c, now, s' := s.reqs[r].req.pc.claims, s.reqs[r].req.pc.now, StepOf(s, r, input);
            if c.jti in s.ledger && s.ledger[c.jti].fate.Live? && s.ledger[c.jti].row.expiresAt > now then
              && s'.reqs[r].req.pc == Resolving(c)
              && s'.ledger == s.ledger[c.jti := s.ledger[c.jti].(fate := Spent(r))]
              && s'.db == s.db.(tokens := s.db.tokens - {c.jti})
            else
              s'.reqs[r].req.pc == Done(Rejected(InvalidRefreshToken)) && s'.db == s.db && s'.ledger == s.ledger
  {
    ReachableInv(s);
    Parts(s);
    StatementStep(s, r, input);
    hide Inv, Flights, Mints, Births, Fates, Deliveries, StepOf;
  }

  // ---------------------------------Session linearity----------------------------------

  /** Every token has at most one successor. */
  lemma OneSuccessor(s: State, i: Uuid, j: Uuid)
    requires Inv(s) && i in s.ledger && j in s.ledger
    requires s.ledger[i].origin.Rotated? && s.ledger[j].origin == s.ledger[i].origin
    ensures i == j
  {
    hide TablesOk, Flights, Mints, Fates, Deliveries;
    assert BirthOk(s, i) && BirthOk(s, j);
    StoredOnce(s, i, j);
  }

  lemma StoredOnce(s: State, i: Uuid, j: Uuid)
    requires TablesOk(s) && i in s.ledger && j in s.ledger && s.ledger[i].storedBy == s.ledger[j].storedBy
    ensures i == j
  {
  }

  /** A session has one token at each depth. */
  lemma {:induction false} OneAtDepth(s: State, i: Uuid, j: Uuid)
    requires Inv(s) && i in s.ledger && j in s.ledger
    requires s.ledger[i].root == s.ledger[j].root && s.ledger[i].depth == s.ledger[j].depth
    ensures i == j
    decreases if i in s.ledger then s.ledger[i].depth else 0
  {
    hide TablesOk, Flights, Mints, Fates, Deliveries;
    assert BirthOk(s, i) && BirthOk(s, j);
    if s.ledger[i].depth > 0 {
      OneAtDepth(s, s.ledger[i].origin.jti, s.ledger[j].origin.jti);
      OneSuccessor(s, i, j);
    }
  }

  /** The forebear of `j` at depth `d`, and its successor on the way to `j`. */
  lemma {:induction false} Forebear(s: State, j: Uuid, d: nat) returns (a: Uuid, next: Uuid)
    requires Inv(s) && j in s.ledger && d < s.ledger[j].depth
    ensures a in s.ledger && s.ledger[a].root == s.ledger[j].root && s.ledger[a].depth == d
    ensures next in s.ledger && s.ledger[next].origin == Rotated(a)
    ensures s.ledger[a].fate == Spent(s.ledger[next].storedBy)
    decreases if j in s.ledger then s.ledger[j].depth else 0
  {
    hide TablesOk, Flights, Mints, Fates, Deliveries;
    assert BirthOk(s, j);
    a, next := s.ledger[j].origin.jti, j;
    if d < s.ledger[a].depth {
      a, next := Forebear(s, a, d);
    }
  }

  /** Who can go on with a session: the holder of a row, or a refresh that has consumed
      and not yet stored. */
  datatype Holder = Row(jti: Uuid) | Hand(r: nat)

  ghost predicate Holds(s: State, h: Holder) {
    match h
    case Row(j) => j in s.db.tokens
    case Hand(r) => r in s.reqs && s.reqs[r].req.call.Refresh? && InWindow(s.reqs[r].req.pc)
  }

  /** The token a holder has, or has consumed. */
  function Held(s: State, h: Holder): Uuid {
    match h
    case Row(j) => j
    case Hand(r) =>
      if r in s.reqs && OriginOf(s.reqs[r].req.call).Rotated? then OriginOf(s.reqs[r].req.call).jti else ""
  }

  /** What a holder has is in the ledger, and has no successor. */
  lemma HeldIsTip(s: State, h: Holder)
    requires Inv(s) && Holds(s, h)
    ensures Held(s, h) in s.ledger
    ensures s.ledger[Held(s, h)].fate == if h.Row? then Live else Spent(h.r)
    ensures forall j :: j in s.ledger ==> s.ledger[j].origin != Rotated(Held(s, h))
  {
    if h.Hand? {
      ConsumerSpent(s, h.r);
    }
    hide Flights, Mints, Fates, Deliveries;
    forall j | j in s.ledger
      ensures s.ledger[j].origin != Rotated(Held(s, h))
    {
      assert BirthOk(s, j);
    }
  }

  /** The session a holder can go on with, by its root. */
  function SessionOf(s: State, h: Holder): Uuid {
    if Held(s, h) in s.ledger then s.ledger[Held(s, h)].root else ""
  }

  /** Session linearity: at any time a session has at most one holder, be it a row of the
      table or a refresh in flight. */
  lemma OneHolder(s: State, g: Holder, h: Holder)
    requires Reachable(s) && Holds(s, g) && Holds(s, h) && SessionOf(s, g) == SessionOf(s, h)
    ensures SessionOf(s, g) in s.ledger && g == h
  {
    ReachableInv(s);
    hide Inv, Reachable;
    HeldIsTip(s, g);
    HeldIsTip(s, h);
    var i, j := Held(s, g), Held(s, h);
    ParentRoot(s, i) by { Parts(s); }
    if s.ledger[i].depth == s.ledger[j].depth {
      OneAtDepth(s, i, j);
    } else if s.ledger[i].depth < s.ledger[j].depth {
      var a, _ := Forebear(s, j, s.ledger[i].depth);
      OneAtDepth(s, a, i);
    } else {
      var a, _ := Forebear(s, i, s.ledger[j].depth);
      OneAtDepth(s, a, j);
    }
  }

  // ---------------------------------Conservation----------------------------------

  function Stores(s: State, u: Uuid): set<Uuid> {
    set j | j in s.ledger && s.ledger[j].row.userId == u
  }

  function SignIns(s: State, u: Uuid): set<Uuid> {
    set j | j in Stores(s, u) && s.ledger[j].origin.SignIn?
  }

  function Rotations(s: State, u: Uuid): set<Uuid> {
    set j | j in Stores(s, u) && s.ledger[j].origin.Rotated?
  }

  function SpentTokens(s: State, u: Uuid): set<Uuid> {
    set j | j in Stores(s, u) && s.ledger[j].fate.Spent?
  }

  function WithdrawnTokens(s: State, u: Uuid): set<Uuid> {
    set j | j in Stores(s, u) && s.ledger[j].fate.Withdrawn?
  }

  /** An injection does not make a set larger. */
  lemma {:induction false} InjectionFits(a: set<Uuid>, b: set<Uuid>, f: map<Uuid, Uuid>)
    requires a <= f.Keys && (forall x :: x in a ==> f[x] in b)
    requires forall x, y :: x in a && y in a && f[x] == f[y] ==> x == y
    ensures |a| <= |b|
    decreases |a|
  {
    if a != {} {
      var x :| x in a;
      InjectionFits(a - {x}, b - {f[x]}, f);
    }
  }

  /** Every rotation of a user's sessions used up a token of its own. */
  lemma RotationsFit(s: State, u: Uuid)
    requires Inv(s)
    ensures |Rotations(s, u)| <= |SpentTokens(s, u)|
  {
    var a := Rotations(s, u);
    var f := map j | j in a :: s.ledger[j].origin.jti;
    hide TablesOk, Flights, Mints, Fates, Deliveries;
    forall i | i in a
      ensures f[i] in SpentTokens(s, u)
    {
      assert BirthOk(s, i);
    }
    forall i, j | i in a && j in a && f[i] == f[j]
      ensures i == j
    {
      OneSuccessor(s, i, j);
    }
    InjectionFits(a, SpentTokens(s, u), f);
  }

  /** Conservation: what was stored for a user is in the table (expired or not), consumed,
      or revoked. Rotation never adds a token, whatever fails or is dropped on the way, so
      the rows and the revoked tokens are covered by sign-ins. */
  lemma Conservation(s: State, u: Uuid)
    requires Reachable(s)
    ensures |SignIns(s, u)| + |Rotations(s, u)| == |TokensOf(s.db, u)| + |SpentTokens(s, u)| + |WithdrawnTokens(s, u)|
    ensures |Rotations(s, u)| <= |SpentTokens(s, u)|
    ensures |TokensOf(s.db, u)| <= |SignIns(s, u)| - |WithdrawnTokens(s, u)|
  {
    ReachableInv(s);
    RotationsFit(s, u);
    hide Inv, Reachable;
    RowsAreLive(s, u) by { Parts(s); }
    hide TokensOf, Stores, SignIns, Rotations, SpentTokens, WithdrawnTokens;
    DisjointCards(SignIns(s, u), Rotations(s, u), {});
    DisjointCards(TokensOf(s.db, u), SpentTokens(s, u), WithdrawnTokens(s, u));
    assert SignIns(s, u) + Rotations(s, u) + {} == SignIns(s, u) + Rotations(s, u);
  }

  lemma RowsAreLive(s: State, u: Uuid)
    requires TablesOk(s)
    ensures SignIns(s, u) + Rotations(s, u) == TokensOf(s.db, u) + SpentTokens(s, u) + WithdrawnTokens(s, u)
    ensures SignIns(s, u) !! Rotations(s, u)
    ensures TokensOf(s.db, u) !! SpentTokens(s, u) !! WithdrawnTokens(s, u)
  {
    hide WellFormed, StoresOnce, CreatorsOk;
    forall j
      ensures j in TokensOf(s.db, u) <==> j in Stores(s, u) && s.ledger[j].fate.Live?
    {
    }
  }

  lemma DisjointCards(a: set<Uuid>, b: set<Uuid>, c: set<Uuid>)
    requires a !! b !! c
    ensures |a + b + c| == |a| + |b| + |c|
  {
  }
}
