/** Requests one after the other: the serial runs that interleaved ones are compared to. */
module Serial {
  import opened AuthCore
  import opened AuthDb
  import opened Machine
  import opened Protocol

  function Fresh(f: Flight): Req {
    Req(f.req.cfg, f.req.call, Start, [])
  }

  function BlockReq(t: Tables, f: Flight): Req {
    SoloReq(t, Fresh(f), f.script)
  }

  function BlockTables(t: Tables, f: Flight): Tables {
    SoloTables(t, Fresh(f), f.script)
  }

  /** The tables after running the requests of `ord` from `t`, each from its first to its
      last step, with the inputs it had. */
  function Serially(t: Tables, ord: seq<nat>, reqs: map<nat, Flight>): Tables
    requires forall r :: r in ord ==> r in reqs
    decreases |ord|
  {
    if ord == [] then t else Serially(BlockTables(t, reqs[ord[0]]), ord[1..], reqs)
  }

  /** In that run every request ends as it did: same pc and response, same statements. */
  ghost predicate Agrees(t: Tables, ord: seq<nat>, reqs: map<nat, Flight>)
    requires forall r :: r in ord ==> r in reqs
    decreases |ord|
  {
    ord == [] ||
    (BlockReq(t, reqs[ord[0]]) == reqs[ord[0]].req && Agrees(BlockTables(t, reqs[ord[0]]), ord[1..], reqs))
  }

  lemma {:induction false} SerialSplits(t: Tables, a: seq<nat>, b: seq<nat>, reqs: map<nat, Flight>)
    requires forall r :: r in a + b ==> r in reqs
    ensures forall r :: (r in a ==> r in reqs) && (r in b ==> r in reqs)
    ensures Serially(t, a + b, reqs) == Serially(Serially(t, a, reqs), b, reqs)
    ensures Agrees(t, a + b, reqs) <==> Agrees(t, a, reqs) && Agrees(Serially(t, a, reqs), b, reqs)
    decreases |a|
  {
    hide BlockReq, BlockTables;
    assert forall r :: r in a || r in b ==> r in a + b;
    if a == [] {
      assert a + b == b;
    } else {
      assert (a + b)[1..] == a[1..] + b;
      SerialSplits(BlockTables(t, reqs[a[0]]), a[1..], b, reqs);
    }
  }

  /** Only the requests that run matter. */
  lemma {:induction false} SerialFrame(t: Tables, ord: seq<nat>, reqs: map<nat, Flight>, reqs': map<nat, Flight>)
    requires forall r :: r in ord ==> r in reqs && r in reqs' && reqs'[r] == reqs[r]
    ensures Serially(t, ord, reqs') == Serially(t, ord, reqs)
    ensures Agrees(t, ord, reqs') <==> Agrees(t, ord, reqs)
    decreases |ord|
  {
    hide BlockReq, BlockTables;
    if ord != [] {
      SerialFrame(BlockTables(t, reqs[ord[0]]), ord[1..], reqs, reqs');
    }
  }

  // ---------------------------------What a request alone can do----------------------------------

  /** Users only come in. */
  ghost predicate Wider(t: Tables, t': Tables) {
    && (forall u :: u in t.users ==> u in t'.users && t'.users[u] == t.users[u])
    && (forall n :: n in t.names ==> n in t'.names && t'.names[n] == t.names[n])
  }

  lemma StepWidens(t: Tables, req: Req, input: Input)
    ensures Wider(t, NextTables(t, req, input))
  {
  }

  lemma {:induction false} SoloWidens(t: Tables, req: Req, script: seq<Input>)
    ensures Wider(t, SoloTables(t, req, script))
    decreases |script|
  {
    hide NextTables, NextReq;
    if script != [] {
      StepWidens(t, req, script[0]);
      SoloWidens(NextTables(t, req, script[0]), NextReq(t, req, script[0]), script[1..]);
    }
  }

  lemma {:induction false} SerialWidens(t: Tables, ord: seq<nat>, reqs: map<nat, Flight>)
    requires forall r :: r in ord ==> r in reqs
    ensures Wider(t, Serially(t, ord, reqs))
    decreases |ord|
  {
    if ord != [] {
      var f := reqs[ord[0]];
      SoloWidens(t, Fresh(f), f.script);
      SerialWidens(BlockTables(t, f), ord[1..], reqs);
    }
  }

  lemma StepRan(t: Tables, req: Req, input: Input)
    ensures NextReq(t, req, input).ran == req.ran + if Executes(req.pc, input) then [Pending(req.pc).value] else []
    ensures NextReq(t, req, input).cfg == req.cfg && NextReq(t, req, input).call == req.call
  {
  }

  /** The statements a request has run stay run. */
  lemma {:induction false} SoloRan(t: Tables, req: Req, script: seq<Input>)
    ensures req.ran <= SoloReq(t, req, script).ran
    ensures SoloReq(t, req, script).cfg == req.cfg && SoloReq(t, req, script).call == req.call
    decreases |script|
  {
    hide NextTables, NextReq;
    if script != [] {
      StepRan(t, req, script[0]);
      SoloRan(NextTables(t, req, script[0]), NextReq(t, req, script[0]), script[1..]);
    }
  }

  // ---------------------------------A store moves left----------------------------------

  /** The statement is about neither the token `jti` nor all tokens of `u`. */
  predicate Apart(y: Stmt, jti: Uuid, u: Uuid) {
    match y
    case InsertToken(j, _, _, _) => j != jti
    case DeleteToken(j, _) => j != jti
    case DeleteTokensOf(v) => v != u
    case _ => true
  }

  predicate AllApart(ran: seq<Stmt>, jti: Uuid, u: Uuid) {
    forall y :: y in ran ==> Apart(y, jti, u)
  }

  /** The store would go in. */
  predicate Storable(t: Tables, x: Stmt) {
    x.InsertToken? && x.jti !in t.tokens && x.userId in t.users
  }

  lemma StoreCommutes(t: Tables, x: Stmt, y: Stmt)
    requires Storable(t, x) && Apart(y, x.jti, x.userId)
    ensures Answer(Effect(t, x), y) == Answer(t, y)
    ensures Effect(Effect(t, x), y) == Effect(Effect(t, y), x)
    ensures Storable(Effect(t, y), x)
  {
    if y.DeleteTokensOf? {
      assert TokensOf(Effect(t, x), y.userId) == TokensOf(t, y.userId);
    }
  }

  lemma StepCommutes(t: Tables, x: Stmt, req: Req, input: Input)
    requires Storable(t, x) && (Executes(req.pc, input) ==> Apart(Pending(req.pc).value, x.jti, x.userId))
    ensures NextReq(Effect(t, x), req, input) == NextReq(t, req, input)
    ensures NextTables(Effect(t, x), req, input) == Effect(NextTables(t, req, input), x)
    ensures Storable(NextTables(t, req, input), x)
  {
    if Executes(req.pc, input) {
      StoreCommutes(t, x, Pending(req.pc).value);
    }
    hide Effect, Answer, Local, Resume, Apart, Storable;
  }

  /** Running a request that keeps apart after the store or before it is the same. */
  lemma {:induction false} SoloCommutes(t: Tables, x: Stmt, req: Req, script: seq<Input>)
    requires Storable(t, x) && AllApart(SoloReq(t, req, script).ran, x.jti, x.userId)
    ensures SoloReq(Effect(t, x), req, script) == SoloReq(t, req, script)
    ensures SoloTables(Effect(t, x), req, script) == Effect(SoloTables(t, req, script), x)
    ensures Storable(SoloTables(t, req, script), x)
    decreases |script|
  {
    hide NextTables, NextReq, Effect, Apart, Storable;
    if script != [] {
      var t1, req1 := NextTables(t, req, script[0]), NextReq(t, req, script[0]);
      StepRan(t, req, script[0]);
      SoloRan(t1, req1, script[1..]);
      if Executes(req.pc, script[0]) {
        assert req1.ran[|req1.ran| - 1] == Pending(req.pc).value;
        assert Pending(req.pc).value in SoloReq(t, req, script).ran;
      }
      StepCommutes(t, x, req, script[0]);
      SoloCommutes(t1, x, req1, script[1..]);
    }
  }

  lemma {:induction false} SerialCommutes(t: Tables, x: Stmt, ord: seq<nat>, reqs: map<nat, Flight>)
    requires forall r :: r in ord ==> r in reqs
    requires Storable(t, x) && Agrees(t, ord, reqs)
    requires forall r :: r in ord ==> AllApart(reqs[r].req.ran, x.jti, x.userId)
    ensures Agrees(Effect(t, x), ord, reqs)
    ensures Serially(Effect(t, x), ord, reqs) == Effect(Serially(t, ord, reqs), x)
    decreases |ord|
  {
    hide Effect, Storable, AllApart;
    if ord != [] {
      var f := reqs[ord[0]];
      SoloCommutes(t, x, Fresh(f), f.script);
      SerialCommutes(BlockTables(t, f), x, ord[1..], reqs);
    }
  }

  // ---------------------------------Reads move right----------------------------------

  predicate AllSelects(ran: seq<Stmt>) {
    forall y :: y in ran ==> y.SelectByName? || y.SelectById?
  }

  lemma StepOfReader(t: Tables, t': Tables, req: Req, input: Input)
    requires Wider(t, t') && !Finished(NextReq(t, req, input).pc)
    requires Executes(req.pc, input) ==> Pending(req.pc).value.SelectByName? || Pending(req.pc).value.SelectById?
    requires WellFormed(t)
    ensures NextReq(t', req, input) == NextReq(t, req, input)
    ensures NextTables(t, req, input) == t && NextTables(t', req, input) == t'
  {
  }

  lemma {:induction false} FinishedIsFinal(t: Tables, req: Req, script: seq<Input>)
    requires !Finished(SoloReq(t, req, script).pc)
    ensures !Finished(req.pc)
  {
    if Finished(req.pc) {
      FinishedStays(t, req, script);
    }
  }

  /** A request in flight that has only read can as well have run later. */
  lemma {:induction false} ReaderMoves(t: Tables, t': Tables, req: Req, script: seq<Input>)
    requires Wider(t, t') && WellFormed(t)
    requires !Finished(SoloReq(t, req, script).pc) && AllSelects(SoloReq(t, req, script).ran)
    ensures SoloReq(t', req, script) == SoloReq(t, req, script)
    ensures SoloTables(t, req, script) == t && SoloTables(t', req, script) == t'
    decreases |script|
  {
    hide NextTables, NextReq, Wider, WellFormed;
    if script != [] {
      var t1, req1 := NextTables(t, req, script[0]), NextReq(t, req, script[0]);
      StepRan(t, req, script[0]);
      SoloRan(t1, req1, script[1..]);
      FinishedIsFinal(t1, req1, script[1..]);
      if Executes(req.pc, script[0]) {
        assert req1.ran[|req1.ran| - 1] == Pending(req.pc).value;
        assert Pending(req.pc).value in SoloReq(t, req, script).ran;
      }
      StepOfReader(t, t', req, script[0]);
      ReaderMoves(t, t', req1, script[1..]);
    }
  }
}
