/** A session that outlives a logout is not serial: the other side of the reduction. */
module Outlived {
  import opened AuthCore
  import opened AuthDb
  import opened Machine
  import opened Ledger
  import opened Protocol
  import opened Invariant
  import opened Steps
  import opened Traces
  import opened Revocation
  import opened Serial
  import opened Serializability
  import opened SerialOrder

  // ---------------------------------Blocks----------------------------------

  /** A block that passes a consume found the token. */
  lemma {:induction false} HitInBlock(t: Tables, req: Req, script: seq<Input>, j: Uuid)
    requires req.ran == [] && SoloReq(t, req, script).ran != []
    requires SoloReq(t, req, script).ran[0].DeleteToken? && SoloReq(t, req, script).ran[0].jti == j
    requires SoloReq(t, req, script).pc != Done(Rejected(InvalidRefreshToken))
    ensures j in t.tokens
    decreases |script|
  {
    if script != [] {
      var t1, req1 := NextTables(t, req, script[0]), NextReq(t, req, script[0]);
      StepRan(t, req, script[0]);
      SoloRan(t1, req1, script[1..]);
      if Executes(req.pc, script[0]) {
        assert req1.ran == [Pending(req.pc).value];
        if j !in t.tokens {
          FinishedStays(t1, req1, script[1..]);
          assert false;
        }
      } else {
        HitInBlock(t1, req1, script[1..], j);
      }
    }
  }

  /** A block whose first statement inserts a user there is ends with it. */
  lemma {:induction false} TakenInBlock(t: Tables, req: Req, script: seq<Input>, u: Uuid)
    requires req.ran == [] && SoloReq(t, req, script).ran != []
    requires SoloReq(t, req, script).ran[0].InsertUser? && SoloReq(t, req, script).ran[0].id == u && u in t.users
    ensures |SoloReq(t, req, script).ran| == 1
    decreases |script|
  {
    if script != [] {
      var t1, req1 := NextTables(t, req, script[0]), NextReq(t, req, script[0]);
      StepRan(t, req, script[0]);
      SoloRan(t1, req1, script[1..]);
      if Executes(req.pc, script[0]) {
        assert req1.ran == [Pending(req.pc).value];
        FinishedStays(t1, req1, script[1..]);
      } else {
        TakenInBlock(t1, req1, script[1..], u);
      }
    }
  }

  /** Who has deleted the tokens of `u` leaves none, and is done with statements. */
  ghost predicate Emptied(t: Tables, req: Req, u: Uuid) {
    DeleteTokensOf(u) in req.ran ==> TokensOf(t, u) == {} && (req.pc.Revoked? || Finished(req.pc))
  }

  lemma StepEmptied(t: Tables, req: Req, input: Input, u: Uuid)
    requires Emptied(t, req, u)
    ensures Emptied(NextTables(t, req, input), NextReq(t, req, input), u)
  {
    StepRan(t, req, input);
    hide Answer, VerifyKind;
  }

  lemma {:induction false} SoloEmptied(t: Tables, req: Req, script: seq<Input>, u: Uuid)
    requires Emptied(t, req, u)
    ensures Emptied(SoloTables(t, req, script), SoloReq(t, req, script), u)
    decreases |script|
  {
    hide Emptied, NextTables, NextReq;
    if script != [] {
      StepEmptied(t, req, script[0], u);
      SoloEmptied(NextTables(t, req, script[0]), NextReq(t, req, script[0]), script[1..], u);
    }
  }

  /** Nobody here stores `j`. */
  ghost predicate NoStore(ran: seq<Stmt>, j: Uuid) {
    forall y :: y in ran && y.InsertToken? ==> y.jti != j
  }

  lemma StepAbsent(t: Tables, req: Req, input: Input, j: Uuid)
    requires j !in t.tokens && NoStore(NextReq(t, req, input).ran, j)
    ensures j !in NextTables(t, req, input).tokens
  {
    StepRan(t, req, input);
    if Executes(req.pc, input) {
      var ran := NextReq(t, req, input).ran;
      assert ran[|ran| - 1] == Pending(req.pc).value;
    }
    hide NextReq, Answer;
  }

  lemma {:induction false} SoloAbsent(t: Tables, req: Req, script: seq<Input>, j: Uuid)
    requires j !in t.tokens && NoStore(SoloReq(t, req, script).ran, j)
    ensures j !in SoloTables(t, req, script).tokens
    decreases |script|
  {
    hide NextTables, NextReq;
    if script != [] {
      SoloRan(NextTables(t, req, script[0]), NextReq(t, req, script[0]), script[1..]);
      StepAbsent(t, req, script[0], j);
      SoloAbsent(NextTables(t, req, script[0]), NextReq(t, req, script[0]), script[1..], j);
    }
  }

  /** What is not there and not stored is not there, and nobody passes its consume. */
  lemma {:induction false} SerialAbsent(s: State, t: Tables, ord: seq<nat>, j: Uuid)
    requires Inv(s) && (forall r :: r in ord ==> r in s.reqs && NoStore(s.reqs[r].req.ran, j))
    requires Agrees(t, ord, s.reqs) && j !in t.tokens && j in s.ledger
    ensures j !in Serially(t, ord, s.reqs).tokens
    ensures forall r :: r in ord ==> s.ledger[j].fate != Spent(r)
    decreases |ord|
  {
    hide Inv, NoStore;
    if ord != [] {
      var f := s.reqs[ord[0]];
      SoloAbsent(t, Fresh(f), f.script, j);
      if s.ledger[j].fate == Spent(ord[0]) {
        SpenderRan(s, j);
        HitInBlock(t, Fresh(f), f.script, j);
        assert false;
      }
      SerialAbsent(s, BlockTables(t, f), ord[1..], j);
    }
  }

  lemma SpenderRan(s: State, j: Uuid)
    requires Inv(s) && j in s.ledger && s.ledger[j].fate.Spent?
    ensures s.ledger[j].fate.req in s.reqs
    ensures var req := s.reqs[s.ledger[j].fate.req].req;
            && req.call.Refresh? && OriginOf(req.call) == Rotated(j)
            && req.ran != [] && req.ran[0].DeleteToken? && req.ran[0].jti == j
            && Signed(req, req.call.token.claims)
            && req.pc != Done(Rejected(InvalidRefreshToken))
  {
    Parts(s);
    assert FateOk(s, j);
    AtRequest(s, s.ledger[j].fate.req);
    hide Inv, Flights, Mints, Births, Fates, Deliveries, TablesOk, FlightOk;
  }

  // ---------------------------------After a logout----------------------------------

  /** In a serial order nothing stored by then survives the block of a logout of its user,
      or is consumed after it. */
  lemma AfterLogout(s: State, a: seq<nat>, l: nat, b: seq<nat>, j: Uuid)
    requires Inv(s) && AllTraced(s) && AllKnown(s) && SerialAs(s, a + [l] + b)
    requires l in s.reqs && j in s.ledger && DeleteTokensOf(s.ledger[j].row.userId) in s.reqs[l].req.ran
    requires s.ledger[j].storedBy !in b
    ensures j !in s.db.tokens && forall y :: y in b ==> s.ledger[j].fate != Spent(y)
  {
    hide Inv, AllKnown, AllTraced, RowsKnown, Agrees;
    PartsOfOrder(s, a, l, b);
    SerialAround(EMPTY, a, l, b, s.reqs);
    var t1, f := Serially(EMPTY, a, s.reqs), s.reqs[l];
    var t2 := BlockTables(t1, f);
    EmptyKnown(s.ledger);
    SerialKnown(s, EMPTY, a);
    BlockKnown(s, t1, l);
    SoloEmptied(t1, Fresh(f), f.script, s.ledger[j].row.userId);
    RowsOwners(t2, s.ledger, j);
    forall r | r in b
      ensures NoStore(s.reqs[r].req.ran, j)
    {
      StoresItsOwn(s, r, j);
    }
    SerialAbsent(s, t2, b, j);
  }

  lemma RowsOwners(t: Tables, l: map<Uuid, Life>, j: Uuid)
    requires RowsKnown(t, l) && j in l
    ensures j in t.tokens ==> j in TokensOf(t, l[j].row.userId)
  {
  }

  lemma StoresItsOwn(s: State, r: nat, j: Uuid)
    requires AllTraced(s) && r in s.reqs && j in s.ledger && s.ledger[j].storedBy != r
    ensures NoStore(s.reqs[r].req.ran, j)
  {
    assert FlightTraced(s, r);
    forall y | y in s.reqs[r].req.ran && y.InsertToken?
      ensures y.jti != j
    {
      assert OwnStmt(s, r, y);
    }
  }

  /** So a session signed in by then is over by then. */
  lemma {:induction false} SessionOver(s: State, a: seq<nat>, l: nat, b: seq<nat>, j: Uuid)
    requires Inv(s) && AllTraced(s) && AllKnown(s) && SerialAs(s, a + [l] + b)
    requires l in s.reqs && j in s.ledger && DeleteTokensOf(s.ledger[j].row.userId) in s.reqs[l].req.ran
    requires s.ledger[j].root in s.ledger && s.ledger[s.ledger[j].root].storedBy !in b
    ensures s.ledger[j].storedBy !in b
    decreases if j in s.ledger then s.ledger[j].depth else 0
  {
    hide AllKnown, AllTraced, SerialAs;
    BirthFacts(s, j);
    RootOf(s, j);
    hide Inv;
    if s.ledger[j].origin.Rotated? {
      SessionOver(s, a, l, b, s.ledger[j].origin.jti);
      AfterLogout(s, a, l, b, s.ledger[j].origin.jti);
    }
  }

  /** Where the root of a token is. */
  lemma RootOf(s: State, j: Uuid)
    requires Inv(s) && j in s.ledger
    ensures s.ledger[j].root in s.ledger
    ensures s.ledger[j].origin.SignIn? ==> s.ledger[j].root == j
    ensures s.ledger[j].origin.Rotated? ==>
              s.ledger[j].origin.jti in s.ledger && s.ledger[j].root == s.ledger[s.ledger[j].origin.jti].root
  {
    hide TablesOk, Flights, Mints, Fates, Deliveries;
    assert BirthOk(s, j);
  }

  // ---------------------------------What comes before a logout----------------------------------

  /** Who was done before a request of the first `n` began is one of them. */
  lemma EarlierStays(s: State, ord: seq<nat>, n: nat, x: nat, z: nat)
    requires Inv(s) && Covers(s, ord) && InTime(s, ord) && n <= |ord|
    requires x in ord[..n] && z in s.reqs[x].after
    ensures z in ord[..n]
  {
    assert FlightOk(s, x);
    hide Inv, PcOk, ScriptOk;
    var i :| 0 <= i < n && ord[i] == x;
    var k :| 0 <= k < |ord| && ord[k] == z;
    assert FinishedBefore(s, ord[k], ord[i]);
    assert ord[..n][k] == z;
  }

  /** The storer of the parent of a token was done before the token's own began. */
  lemma ParentStorerBefore(s: State, j: Uuid)
    requires Inv(s) && AllTraced(s) && j in s.ledger && s.ledger[j].origin.Rotated?
    ensures s.ledger[j].origin.jti in s.ledger && s.ledger[j].storedBy in s.reqs
    ensures s.ledger[s.ledger[j].origin.jti].storedBy in s.reqs[s.ledger[j].storedBy].after
  {
    BirthFacts(s, j);
    SpenderRan(s, s.ledger[j].origin.jti);
    assert FlightTraced(s, s.ledger[j].storedBy);
    hide Inv, Vouched;
  }

  /** With the storer of a token, the storer of its root is one of the first `n`. */
  lemma {:induction false} RootStays(s: State, ord: seq<nat>, n: nat, j: Uuid)
    requires Inv(s) && AllTraced(s) && Covers(s, ord) && InTime(s, ord) && n <= |ord|
    requires j in s.ledger && s.ledger[j].storedBy in ord[..n]
    ensures s.ledger[j].root in s.ledger && s.ledger[s.ledger[j].root].storedBy in ord[..n]
    ensures s.ledger[s.ledger[j].root].row.userId == s.ledger[j].row.userId
    ensures s.ledger[s.ledger[j].root].origin.SignIn?
    decreases if j in s.ledger then s.ledger[j].depth else 0
  {
    hide AllTraced, Covers, InTime;
    BirthFacts(s, j);
    RootOf(s, j);
    if s.ledger[j].origin.Rotated? {
      ParentStorerBefore(s, j);
      EarlierStays(s, ord, n, s.ledger[j].storedBy, s.ledger[s.ledger[j].origin.jti].storedBy);
      hide Inv;
      RootStays(s, ord, n, s.ledger[j].origin.jti);
    }
  }

  // ---------------------------------Users come first----------------------------------

  /** For whom tokens were stored, is there. */
  ghost predicate OwnersIn(t: Tables, req: Req) {
    forall y :: y in req.ran && y.InsertToken? ==> y.userId in t.users
  }

  lemma StepOwners(t: Tables, req: Req, input: Input)
    requires Sane(t, req) && OwnersIn(t, req)
    ensures OwnersIn(NextTables(t, req, input), NextReq(t, req, input))
  {
    StepRan(t, req, input);
    StepWidens(t, req, input);
    hide NextTables, NextReq;
  }

  lemma {:induction false} SoloOwners(t: Tables, req: Req, script: seq<Input>, l: map<Uuid, Life>)
    requires RowsKnown(t, l) && Sane(t, req) && OwnerKnown(req, l) && OwnersIn(t, req)
    requires RanKnown(SoloReq(t, req, script).ran, l)
    ensures OwnersIn(SoloTables(t, req, script), SoloReq(t, req, script))
    decreases |script|
  {
    hide NextTables, NextReq, RowsKnown, Sane, StmtKnown, OwnersIn;
    if script != [] {
      var t1, req1 := NextTables(t, req, script[0]), NextReq(t, req, script[0]);
      StepRan(t, req, script[0]);
      SoloRan(t1, req1, script[1..]);
      if Executes(req.pc, script[0]) {
        assert req1.ran[|req1.ran| - 1] == Pending(req.pc).value;
        assert Pending(req.pc).value in SoloReq(t, req, script).ran;
      }
      StepKnown(t, req, script[0], l);
      StepSane(t, req, script[0], l);
      StepOwners(t, req, script[0]);
      SoloOwners(t1, req1, script[1..], l);
    }
  }

  /** After the block of a token's storer the owner is there. */
  lemma OwnerAfterStorer(s: State, ord: seq<nat>, j: Uuid)
    requires AllKnown(s) && AllTraced(s) && (forall r :: r in ord ==> r in s.reqs) && Agrees(EMPTY, ord, s.reqs)
    requires j in s.ledger && s.ledger[j].storedBy in ord
    ensures s.ledger[j].row.userId in Serially(EMPTY, ord, s.reqs).users
  {
    var r := s.ledger[j].storedBy;
    var p :| 0 <= p < |ord| && ord[p] == r;
    var a, b := ord[..p], ord[p + 1..];
    assert ord == a + [r] + b;
    hide AllKnown, AllTraced, RowsKnown, Agrees, Sane, RanKnown, OwnerKnown;
    assert forall q :: q in a || q in b ==> q in ord;
    SerialAround(EMPTY, a, r, b, s.reqs);
    var t1, f := Serially(EMPTY, a, s.reqs), s.reqs[r];
    EmptyKnown(s.ledger);
    SerialKnown(s, EMPTY, a);
    FreshKnown(s, t1, r);
    SoloOwners(t1, Fresh(f), f.script, s.ledger);
    StorerRanOf(s, j);
    SerialWidens(BlockTables(t1, f), b, s.reqs);
  }

  lemma FreshKnown(s: State, t: Tables, r: nat)
    requires AllKnown(s) && r in s.reqs
    ensures Sane(t, Fresh(s.reqs[r])) && OwnerKnown(Fresh(s.reqs[r]), s.ledger)
    ensures RanKnown(s.reqs[r].req.ran, s.ledger) && OwnersIn(t, Fresh(s.reqs[r]))
  {
    assert RequestKnown(s, r);
  }

  lemma StorerRanOf(s: State, j: Uuid)
    requires AllKnown(s) && AllTraced(s) && j in s.ledger && s.ledger[j].storedBy in s.reqs
    ensures exists y :: y in s.reqs[s.ledger[j].storedBy].req.ran && y.InsertToken? && y.userId == s.ledger[j].row.userId
  {
    assert StorerRan(s, j) && RequestKnown(s, s.ledger[j].storedBy);
    var y :| y in s.reqs[s.ledger[j].storedBy].req.ran && y.InsertToken? && y.jti == j;
    assert StmtKnown(y, s.ledger);
  }

  /** A registration that has stored a token comes before everyone who has stored one for
      its user. */
  lemma RegistrationFirst(s: State, ord: seq<nat>, n: nat, i: Uuid, j: Uuid)
    requires Inv(s) && AllTraced(s) && AllKnown(s) && SerialAs(s, ord) && n <= |ord|
    requires i in s.ledger && s.ledger[i].storedBy in ord[..n]
    requires j in s.ledger && s.ledger[j].storedBy in s.reqs && s.reqs[s.ledger[j].storedBy].req.call.Register?
    requires s.ledger[i].row.userId == s.ledger[j].row.userId
    ensures s.ledger[j].storedBy in ord[..n]
  {
    var r, u := s.ledger[j].storedBy, s.ledger[j].row.userId;
    var p :| 0 <= p < |ord| && ord[p] == r;
    if p < n {
      assert ord[..n][p] == r;
    } else {
      var a, b := ord[..p], ord[p + 1..];
      assert ord == a + [r] + b;
      assert s.ledger[i].storedBy in a by { assert a[..n] == ord[..n]; }
      hide AllKnown, AllTraced, Inv;
      PartsOfOrder(s, a, r, b);
      SerialAround(EMPTY, a, r, b, s.reqs);
      OwnerAfterStorer(s, a, i);
      var t := Serially(EMPTY, a, s.reqs);
      CreatorStores(s, j);
      TakenInBlock(t, Fresh(s.reqs[r]), s.reqs[r].script, u);
      assert false;
    }
  }

  /** A registration that has stored a token has run more than its insert. */
  lemma CreatorStores(s: State, j: Uuid)
    requires Inv(s) && AllTraced(s) && j in s.ledger
    requires s.ledger[j].storedBy in s.reqs && s.reqs[s.ledger[j].storedBy].req.call.Register?
    ensures var ran := s.reqs[s.ledger[j].storedBy].req.ran;
            |ran| > 1 && ran[0].InsertUser? && ran[0].id == s.ledger[j].row.userId
  {
    BirthFacts(s, j);
    RegisterVouched(s, s.ledger[j].storedBy, s.ledger[j].row.userId);
    hide Inv, Vouched;
    assert CreatorRan(s, s.ledger[j].row.userId) && StorerRan(s, j);
  }

  // ---------------------------------Outlived logouts----------------------------------

  /** The token `j` outlives the logout `l`: it is in the table, or was consumed by a
      refresh that began when the logout was finished. */
  ghost predicate Outlives(s: State, l: nat, j: Uuid)
    requires j in s.ledger
  {
    var fate := s.ledger[j].fate;
    j in s.db.tokens || (fate.Spent? && fate.req in s.reqs && l in s.reqs[fate.req].after)
  }

  /** The session of `j` was signed in before the logout `l`: by the registration of the
      user, or by a login that was finished when the logout began. */
  ghost predicate SignedInBefore(s: State, l: nat, j: Uuid)
    requires l in s.reqs && j in s.ledger
  {
    && s.ledger[j].root in s.ledger
    && var r := s.ledger[s.ledger[j].root].storedBy;
       r in s.reqs && (s.reqs[r].req.call.Register? || r in s.reqs[l].after)
  }

  lemma {:induction false} RunKnown(s: State, acts: seq<Action>)
    requires Inv(s) && AllKnown(s) && Valid(s, acts)
    ensures AllKnown(Run(s, acts))
    decreases |acts|
  {
    hide Inv, AllKnown, Enabled, Apply;
    if acts != [] {
      ActionKnown(s, acts[0]);
      ActionKeepsInv(s, acts[0]);
      RunKnown(Apply(s, acts[0]), acts[1..]);
    }
  }

  lemma ReachableKnown(s: State)
    requires Reachable(s)
    ensures AllKnown(s)
  {
    var acts :| Valid(INITIAL, acts) && Run(INITIAL, acts) == s;
    InitialInv();
    RunKnown(INITIAL, acts);
  }

  /** The token a logout presents is its user's, and its storer was done before. */
  lemma LogoutFacts(s: State, l: nat, u: Uuid)
    requires Inv(s) && AllTraced(s) && l in s.reqs && DeleteTokensOf(u) in s.reqs[l].req.ran
    ensures s.reqs[l].req.call.Logout? && s.reqs[l].req.call.token.Jwt?
    ensures var i := s.reqs[l].req.call.token.claims.jti;
            i in s.ledger && s.ledger[i].row.userId == u && s.ledger[i].storedBy in s.reqs[l].after
  {
    hide Inv;
    assert FlightTraced(s, l);
    assert OwnStmt(s, l, DeleteTokensOf(u));
    PresentedToken(s, l);
  }

  lemma SignInStays(s: State, ord: seq<nat>, n: nat, l: nat, j: Uuid)
    requires Inv(s) && AllTraced(s) && AllKnown(s) && SerialAs(s, ord) && InTime(s, ord) && n <= |ord|
    requires l in s.reqs && l in ord[..n] && j in s.ledger && DeleteTokensOf(s.ledger[j].row.userId) in s.reqs[l].req.ran
    requires SignedInBefore(s, l, j)
    ensures s.ledger[s.ledger[j].root].storedBy in ord[..n]
  {
    var u, root := s.ledger[j].row.userId, s.ledger[j].root;
    hide AllTraced, AllKnown, Agrees, InTime;
    assert Covers(s, ord);
    if s.ledger[root].storedBy in s.reqs[l].after {
      EarlierStays(s, ord, n, l, s.ledger[root].storedBy);
    } else {
      LogoutFacts(s, l, u);
      var i := s.reqs[l].req.call.token.claims.jti;
      EarlierStays(s, ord, n, l, s.ledger[i].storedBy);
      RootOwner(s, j);
      hide Inv;
      RegistrationFirst(s, ord, n, i, root);
    }
  }

  lemma {:induction false} RootOwner(s: State, j: Uuid)
    requires Inv(s) && j in s.ledger
    ensures s.ledger[j].root in s.ledger && s.ledger[s.ledger[j].root].row.userId == s.ledger[j].row.userId
    decreases if j in s.ledger then s.ledger[j].depth else 0
  {
    BirthFacts(s, j);
    RootOf(s, j);
    if s.ledger[j].origin.Rotated? {
      hide Inv;
      RootOwner(s, s.ledger[j].origin.jti);
    }
  }

  /** In a serial order no session outlives a logout it was signed in before. */
  lemma SerialIsNotOutlived(s: State, ord: seq<nat>, l: nat, j: Uuid)
    requires Inv(s) && AllTraced(s) && AllKnown(s) && SerialAs(s, ord) && InTime(s, ord)
    requires l in s.reqs && j in s.ledger && DeleteTokensOf(s.ledger[j].row.userId) in s.reqs[l].req.ran
    requires SignedInBefore(s, l, j)
    ensures !Outlives(s, l, j)
  {
    hide Inv, AllTraced, AllKnown, Agrees, InTime;
    var p :| 0 <= p < |ord| && ord[p] == l;
    var a, b := ord[..p], ord[p + 1..];
    assert ord == a + [l] + b && ord[..p + 1] == a + [l];
    PartsOfOrder(s, a, l, b);
    SignInStays(s, ord, p + 1, l, j);
    NotBoth(s, ord, p + 1, s.ledger[s.ledger[j].root].storedBy);
    hide SignedInBefore, SerialAs;
    SessionOver(s, a, l, b, j);
    AfterLogout(s, a, l, b, j);
    if s.ledger[j].fate.Spent? && s.ledger[j].fate.req in s.reqs && l in s.reqs[s.ledger[j].fate.req].after {
      assert Covers(s, ord) by { SerialCovers(s, ord); }
      LaterIsLater(s, ord, p, s.ledger[j].fate.req, j);
    }
  }

  lemma SerialCovers(s: State, ord: seq<nat>)
    requires SerialAs(s, ord)
    ensures Covers(s, ord)
  {
  }

  /** A run in which a session outlives a logout of its user that it was signed in before
      is not serial: no order of the requests that respects which were finished when others
      began gives the same responses and tables. */
  lemma OutlivedIsNotSerial(s: State, l: nat, j: Uuid)
    requires Reachable(s) && l in s.reqs && j in s.ledger && DeleteTokensOf(s.ledger[j].row.userId) in s.reqs[l].req.ran
    requires SignedInBefore(s, l, j) && Outlives(s, l, j)
    ensures !IsSerial(s)
  {
    ReachableInv(s);
    ReachableTraced(s);
    ReachableKnown(s);
    hide Inv, AllTraced, AllKnown, Reachable, SerialAs, InTime, Outlives, SignedInBefore;
    if ord :| SerialAs(s, ord) && InTime(s, ord) {
      SerialIsNotOutlived(s, ord, l, j);
      assert false;
    }
  }

  lemma NotBoth(s: State, ord: seq<nat>, n: nat, r: nat)
    requires Covers(s, ord) && n <= |ord| && r in ord[..n]
    ensures r !in ord[n..]
  {
    var i :| 0 <= i < n && ord[i] == r;
    forall k | n <= k < |ord|
      ensures ord[k] != r
    {
    }
  }

  /** A refresh that began after the logout comes after it. */
  lemma LaterIsLater(s: State, ord: seq<nat>, p: nat, y: nat, j: Uuid)
    requires Inv(s) && AllTraced(s) && Covers(s, ord) && InTime(s, ord) && p < |ord| && ord[p] in s.reqs
    requires j in s.ledger && s.ledger[j].fate == Spent(y) && y in s.reqs && ord[p] in s.reqs[y].after
    requires DeleteTokensOf(s.ledger[j].row.userId) in s.reqs[ord[p]].req.ran
    ensures y in ord[p + 1..]
  {
    LogoutFacts(s, ord[p], s.ledger[j].row.userId);
    SpenderRan(s, j);
    hide Inv, AllTraced;
    var k :| 0 <= k < |ord| && ord[k] == y;
    assert FinishedBefore(s, ord[p], ord[k]);
    assert ord[p + 1..][k - p - 1] == y;
  }
}
