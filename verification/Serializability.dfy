/** Every interleaved run amounts to a serial one, unless a logout comes between the
    opening and the store of a registration or a refresh of its user. */
module Serializability {
  import opened AuthCore
  import opened AuthDb
  import opened Machine
  import opened Ledger
  import opened Protocol
  import opened Invariant
  import opened Steps
  import opened Serial
  import opened Identities

  // ---------------------------------Rows in serial runs----------------------------------

  /** Statements on tokens agree with the ledger. */
  ghost predicate RanKnown(ran: seq<Stmt>, l: map<Uuid, Life>) {
    forall y :: y in ran ==> StmtKnown(y, l)
  }

  ghost predicate StmtKnown(y: Stmt, l: map<Uuid, Life>) {
    && (y.InsertToken? ==> y.jti in l && l[y.jti].row == RowOf(y))
    && (y.DeleteToken? ==> y.jti in l)
  }

  /** So do the rows. */
  ghost predicate RowsKnown(t: Tables, l: map<Uuid, Life>) {
    WellFormed(t) && forall j :: j in t.tokens ==> j in l && l[j].row == t.tokens[j]
  }

  /** What the machine alone knows of the user it works for. */
  ghost predicate Sane(t: Tables, req: Req) {
    && (req.pc.Verified? || req.pc.Consuming? || req.pc.Resolving? ==> req.call.Refresh? && Signed(req, req.pc.claims))
    && (InWindow(req.pc) ==> WindowUser(req.pc) in t.users)
  }

  /** The token a refresh presents is stored under the user it names. */
  ghost predicate OwnerKnown(req: Req, l: map<Uuid, Life>) {
    req.call.Refresh? && req.call.token.Jwt? && Signed(req, req.call.token.claims) && req.call.token.claims.jti in l ==>
      l[req.call.token.claims.jti].row.userId == req.call.token.claims.sub
  }

  lemma StepKnown(t: Tables, req: Req, input: Input, l: map<Uuid, Life>)
    requires RowsKnown(t, l) && (Executes(req.pc, input) ==> StmtKnown(Pending(req.pc).value, l))
    ensures RowsKnown(NextTables(t, req, input), l)
  {
    if Executes(req.pc, input) {
      StatementsKeepSchema(t, Pending(req.pc).value);
    }
    hide WellFormed, Pending;
  }

  lemma StepSane(t: Tables, req: Req, input: Input, l: map<Uuid, Life>)
    requires RowsKnown(t, l) && Sane(t, req) && OwnerKnown(req, l)
    ensures Sane(NextTables(t, req, input), NextReq(t, req, input))
  {
  }

  lemma {:induction false} SoloKnown(t: Tables, req: Req, script: seq<Input>, l: map<Uuid, Life>)
    requires RowsKnown(t, l) && Sane(t, req) && OwnerKnown(req, l)
    requires RanKnown(SoloReq(t, req, script).ran, l)
    ensures RowsKnown(SoloTables(t, req, script), l)
    ensures Sane(SoloTables(t, req, script), SoloReq(t, req, script))
    decreases |script|
  {
    hide NextTables, NextReq, RowsKnown, Sane, StmtKnown;
    if script != [] {
      var t1, req1 := NextTables(t, req, script[0]), NextReq(t, req, script[0]);
      StepRan(t, req, script[0]);
      SoloRan(t1, req1, script[1..]);
      if Executes(req.pc, script[0]) {
        assert req1.ran[|req1.ran| - 1] == Pending(req.pc).value;
        assert Pending(req.pc).value in SoloReq(t, req, script).ran;
      }
      StepKnown(t, req, script[0], l);
      StepSane(t, req, script[0], l);
      SoloKnown(t1, req1, script[1..], l);
    }
  }

  /** What a state knows of all its requests' statements. */
  ghost predicate AllKnown(s: State) {
    forall r {:trigger RequestKnown(s, r)} :: r in s.reqs ==> RequestKnown(s, r)
  }

  ghost predicate RequestKnown(s: State, r: nat)
    requires r in s.reqs
  {
    && RanKnown(s.reqs[r].req.ran, s.ledger) && OwnerKnown(s.reqs[r].req, s.ledger)
    && (s.reqs[r].req.ran != [] ==> exists i :: 0 <= i < |s.log| && s.log[i].req == r)
    && Shaped(s.reqs[r].req)
  }

  /** Nobody is in the window without a statement, and a login there has only read. */
  ghost predicate Shaped(req: Req) {
    && (Stage(req.pc) <= 3 ==> req.ran == [])
    && (InWindow(req.pc) ==> req.ran != [])
    && (req.call.Login? ==>
          && !(req.pc.Hashing? || req.pc.Hashed? || req.pc.Creating? || req.pc.Verified? || req.pc.Consuming? || req.pc.Resolving?)
          && (InWindow(req.pc) ==> AllSelects(req.ran)))
  }

  lemma StepShaped(t: Tables, req: Req, input: Input)
    requires Shaped(req)
    ensures Shaped(NextReq(t, req, input))
  {
    hide Answer, VerifyKind;
  }

  lemma {:induction false} SerialKnown(s: State, t: Tables, ord: seq<nat>)
    requires AllKnown(s) && RowsKnown(t, s.ledger) && (forall r :: r in ord ==> r in s.reqs) && Agrees(t, ord, s.reqs)
    ensures RowsKnown(Serially(t, ord, s.reqs), s.ledger)
    decreases |ord|
  {
    hide RowsKnown, RanKnown, OwnerKnown;
    if ord != [] {
      BlockKnown(s, t, ord[0]);
      SerialKnown(s, BlockTables(t, s.reqs[ord[0]]), ord[1..]);
    }
  }

  lemma BlockKnown(s: State, t: Tables, r: nat)
    requires AllKnown(s) && RowsKnown(t, s.ledger) && r in s.reqs && BlockReq(t, s.reqs[r]) == s.reqs[r].req
    ensures RowsKnown(BlockTables(t, s.reqs[r]), s.ledger)
    ensures Sane(BlockTables(t, s.reqs[r]), s.reqs[r].req)
  {
    var f := s.reqs[r];
    assert RequestKnown(s, r);
    hide RowsKnown, RanKnown;
    SoloKnown(t, Fresh(f), f.script, s.ledger);
  }

  // ---------------------------------Growth of what is known----------------------------------

  lemma StartKnown(s: State, s': State, r: nat)
    requires Inv(s') && r in s'.reqs && s'.reqs[r].req.pc.Start?
    ensures RequestKnown(s', r)
  {
    OwnerIsKnown(s', r);
    assert FlightOk(s', r);
    hide Inv, OwnerKnown;
  }

  lemma OwnerIsKnown(s: State, r: nat)
    requires Inv(s) && r in s.reqs
    ensures OwnerKnown(s.reqs[r].req, s.ledger)
  {
    hide Inv;
    if s.reqs[r].req.call.Refresh? && s.reqs[r].req.call.token.Jwt? && Signed(s.reqs[r].req, s.reqs[r].req.call.token.claims) {
      PresentedToken(s, r);
    }
  }

  lemma KnownKept(s: State, s': State, r: nat)
    requires Grows(s, s') && Inv(s') && r in s.reqs && RequestKnown(s, r) && s'.reqs[r] == s.reqs[r]
    ensures RequestKnown(s', r)
  {
    OwnerIsKnown(s', r);
    RanKept(s, s', s.reqs[r].req.ran);
    if s.reqs[r].req.ran != [] {
      var i :| 0 <= i < |s.log| && s.log[i].req == r;
      assert s'.log[i] == s.log[i];
    }
    hide Inv, RanKnown, OwnerKnown;
  }

  lemma RanKept(s: State, s': State, ran: seq<Stmt>)
    requires Grows(s, s') && RanKnown(ran, s.ledger)
    ensures RanKnown(ran, s'.ledger)
  {
    forall y | y in ran
      ensures StmtKnown(y, s'.ledger)
    {
      assert StmtKnown(y, s.ledger);
    }
  }

  /** The statement a request runs is known to the ledger after it. */
  lemma RunStmtKnown(s: State, r: nat, input: Input)
    requires Inv(s) && Enabled(s, Step(r, input)) && Executes(s.reqs[r].req.pc, input)
    ensures StmtKnown(Pending(s.reqs[r].req.pc).value, StepOf(s, r, input).ledger)
  {
    Parts(s);
    AtRequest(s, r);
    LookupAnswers(s, r);
    if s.reqs[r].req.pc.Consuming? {
      PresentedToken(s, r);
    }
    StatementStep(s, r, input);
    hide Inv, Flights, Mints, Births, Fates, Deliveries, FlightOk, ScriptOk, StepOf, Vouched, TablesOk, Mirrors;
  }

  lemma ActorKnown(s: State, r: nat, input: Input)
    requires Inv(s) && Enabled(s, Step(r, input)) && RequestKnown(s, r)
    requires Inv(StepOf(s, r, input)) && Grows(s, StepOf(s, r, input))
    ensures RequestKnown(StepOf(s, r, input), r)
  {
    hide Inv, OwnerKnown, RanKnown, Shaped, NextReq, NextTables, Record, ReqsGrow, LedgerGrows;
    var s', req := StepOf(s, r, input), s.reqs[r].req;
    OwnerIsKnown(s', r);
    StepShaped(s.db, req, input);
    StepRan(s.db, req, input);
    RanKept(s, s', req.ran);
    if Executes(req.pc, input) {
      RunStmtKnown(s, r, input);
      RanExtends(req.ran, Pending(req.pc).value, s'.ledger);
      assert s'.log[|s.log|].req == r;
    } else {
      assert req.ran + [] == req.ran;
      assert s'.log == s.log;
    }
  }

  lemma RanExtends(ran: seq<Stmt>, y: Stmt, l: map<Uuid, Life>)
    requires RanKnown(ran, l) && StmtKnown(y, l)
    ensures RanKnown(ran + [y], l)
  {
  }

  lemma ActionKnown(s: State, a: Action)
    requires Inv(s) && AllKnown(s) && Enabled(s, a)
    ensures AllKnown(Apply(s, a))
  {
    hide Inv, StepOf, RequestKnown;
    var s' := Apply(s, a);
    ActionKeepsInv(s, a);
    forall r | r in s'.reqs
      ensures RequestKnown(s', r)
    {
      if a.Step? && a.r == r {
        ActorKnown(s, r, a.input);
      } else if a.Begin? && a.r == r {
        StartKnown(s, s', r);
      } else {
        assert s'.reqs[r] == s.reqs[r] by { OthersStay(s, a, r); }
        KnownKept(s, s', r);
      }
    }
  }

  lemma OthersStay(s: State, a: Action, r: nat)
    requires Enabled(s, a) && r in Apply(s, a).reqs && ((a.Step? || a.Begin?) ==> a.r != r)
    ensures r in s.reqs && Apply(s, a).reqs[r] == s.reqs[r]
  {
  }
}
