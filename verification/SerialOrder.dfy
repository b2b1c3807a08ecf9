/** The serial order of a run, kept up step by step. */
module SerialOrder {
  import opened AuthCore
  import opened AuthDb
  import opened Machine
  import opened Ledger
  import opened Protocol
  import opened Invariant
  import opened Steps
  import opened Serial
  import opened Serializability

  // ---------------------------------The order----------------------------------

  ghost predicate Covers(s: State, ord: seq<nat>) {
    && (forall r :: r in ord <==> r in s.reqs)
    && (forall i, k :: 0 <= i < k < |ord| ==> ord[i] != ord[k])
  }

  /** Run one after the other in the order `ord`, all requests end as they did, and leave
      the tables as they are. */
  ghost predicate SerialAs(s: State, ord: seq<nat>) {
    Covers(s, ord) && Agrees(EMPTY, ord, s.reqs) && Serially(EMPTY, ord, s.reqs) == s.db
  }

  /** A logout deleted the tokens of `u` after `r` had run a statement. */
  ghost predicate Disturbed(s: State, r: nat, u: Uuid) {
    exists i, k :: 0 <= i < k < |s.log| && s.log[i].req == r && s.log[k].stmt == DeleteTokensOf(u)
  }

  /** `x` may come before `y`: `y` was not finished when `x` began, and unless `x` is
      disturbed, `y` did not delete the tokens of a user `x` is about to store one for. */
  ghost predicate MayPrecede(s: State, x: nat, y: nat)
    requires x in s.reqs && y in s.reqs
  {
    && y !in s.reqs[x].after
    && var pc := s.reqs[x].req.pc;
       (InWindow(pc) && !Disturbed(s, x, WindowUser(pc)) ==> DeleteTokensOf(WindowUser(pc)) !in s.reqs[y].req.ran)
  }

  ghost predicate Ordered(s: State, ord: seq<nat>)
    requires Covers(s, ord)
  {
    forall i, k :: 0 <= i < k < |ord| ==> MayPrecede(s, ord[i], ord[k])
  }

  lemma PartsOfOrder(s: State, a: seq<nat>, r: nat, b: seq<nat>)
    requires Covers(s, a + [r] + b)
    ensures r in s.reqs && r !in a && r !in b && (forall q :: q in a || q in b ==> q in s.reqs)
  {
    var ord := a + [r] + b;
    assert ord[|a|] == r;
    forall i | 0 <= i < |a|
      ensures a[i] != r && a[i] in s.reqs
    {
      assert a[i] == ord[i];
    }
    forall i | 0 <= i < |b|
      ensures b[i] != r && b[i] in s.reqs
    {
      assert b[i] == ord[|a| + 1 + i];
    }
  }

  /** The serial run of `a`, `r`, `b`, taken apart. */
  lemma SerialAround(t: Tables, a: seq<nat>, r: nat, b: seq<nat>, reqs: map<nat, Flight>)
    requires r in reqs && forall q :: q in a || q in b ==> q in reqs
    ensures forall q :: q in a + [r] + b ==> q in reqs
    ensures var t1 := Serially(t, a, reqs); var t2 := BlockTables(t1, reqs[r]);
            && (Agrees(t, a + [r] + b, reqs) <==>
                Agrees(t, a, reqs) && BlockReq(t1, reqs[r]) == reqs[r].req && Agrees(t2, b, reqs))
            && Serially(t, a + [r] + b, reqs) == Serially(t2, b, reqs)
  {
    hide BlockReq, BlockTables;
    assert a + [r] + b == a + ([r] + b);
    assert ([r] + b)[1..] == b;
    SerialSplits(t, a, [r] + b, reqs);
  }

  // ---------------------------------A step in place----------------------------------

  /** The step extends the request where it is, if it meets the same reply there and what
      runs after it does not notice. */
  lemma InPlace(s: State, r: nat, input: Input, a: seq<nat>, b: seq<nat>)
    requires Enabled(s, Step(r, input)) && SerialAs(s, a + [r] + b)
    requires (forall q :: q in a || q in b ==> q in s.reqs)
    requires var t2, req := BlockTables(Serially(EMPTY, a, s.reqs), s.reqs[r]), s.reqs[r].req;
             && NextReq(t2, req, input) == NextReq(s.db, req, input)
             && Agrees(NextTables(t2, req, input), b, s.reqs)
             && Serially(NextTables(t2, req, input), b, s.reqs) == NextTables(s.db, req, input)
    ensures SerialAs(StepOf(s, r, input), a + [r] + b)
  {
    var s', f := StepOf(s, r, input), s.reqs[r];
    var t1 := Serially(EMPTY, a, s.reqs);
    PartsOfOrder(s, a, r, b);
    SerialAround(EMPTY, a, r, b, s.reqs);
    assert s'.reqs == s.reqs[r := s'.reqs[r]] && s'.reqs[r].script == f.script + [input] && s'.db == NextTables(s.db, f.req, input);
    assert s'.reqs[r].req == NextReq(s.db, f.req, input) && Fresh(s'.reqs[r]) == Fresh(f) by { StepRan(s.db, f.req, input); }
    hide StepOf, NextReq, NextTables;
    SoloExtends(t1, Fresh(f), f.script, input);
    var t2 := NextTables(BlockTables(t1, f), f.req, input);
    SerialFrame(EMPTY, a, s.reqs, s'.reqs);
    SerialFrame(t2, b, s.reqs, s'.reqs);
    SerialAround(EMPTY, a, r, b, s'.reqs);
  }

  /** A request that has only read so far can as well run last; then the step it takes is
      the one it took. */
  lemma ToEnd(s: State, r: nat, input: Input, a: seq<nat>, b: seq<nat>)
    requires Enabled(s, Step(r, input)) && SerialAs(s, a + [r] + b)
    requires forall q :: q in a ==> q in s.reqs
    requires BlockTables(Serially(EMPTY, a, s.reqs), s.reqs[r]) == Serially(EMPTY, a, s.reqs)
    requires BlockReq(s.db, s.reqs[r]) == s.reqs[r].req && BlockTables(s.db, s.reqs[r]) == s.db
    ensures SerialAs(StepOf(s, r, input), a + b + [r])
  {
    var s', f := StepOf(s, r, input), s.reqs[r];
    PartsOfOrder(s, a, r, b);
    SerialAround(EMPTY, a, r, b, s.reqs);
    assert s'.reqs == s.reqs[r := s'.reqs[r]] && s'.reqs[r].script == f.script + [input] && s'.db == NextTables(s.db, f.req, input);
    assert s'.reqs[r].req == NextReq(s.db, f.req, input) && Fresh(s'.reqs[r]) == Fresh(f) by { StepRan(s.db, f.req, input); }
    hide StepOf, NextReq, NextTables;
    SoloExtends(s.db, Fresh(f), f.script, input);
    SerialSplits(EMPTY, a, b, s.reqs);
    SerialFrame(EMPTY, a + b, s.reqs, s'.reqs);
    SerialAround(EMPTY, a + b, r, [], s'.reqs);
    assert a + b + [r] + [] == a + b + [r];
    MovedCovers(s, s', a, r, b);
  }

  lemma MovedCovers(s: State, s': State, a: seq<nat>, r: nat, b: seq<nat>)
    requires Covers(s, a + [r] + b) && s'.reqs.Keys == s.reqs.Keys
    ensures Covers(s', a + b + [r])
  {
    var ord, ord' := a + [r] + b, a + b + [r];
    forall i, k | 0 <= i < k < |ord'|
      ensures ord'[i] != ord'[k]
    {
      var i1 := if i < |a| then i else if i < |a| + |b| then i + 1 else |a|;
      var k1 := if k < |a| then k else if k < |a| + |b| then k + 1 else |a|;
      assert ord'[i] == ord[i1] && ord'[k] == ord[k1];
    }
    forall q
      ensures q in ord' <==> q in ord
    {
      assert q in ord' <==> q in a || q in b || q == r;
      assert q in ord <==> q in a || q in b || q == r;
    }
  }

  // ---------------------------------Who may precede whom----------------------------------

  /** Pairs that are not touched, or of which only the first goes on in its window, or only
      the second goes on without a delete. */
  lemma MayStillPrecede(s: State, r: nat, input: Input, x: nat, y: nat)
    requires Inv(s) && Enabled(s, Step(r, input)) && Inv(StepOf(s, r, input)) && Grows(s, StepOf(s, r, input))
    requires x != y && x in s.reqs && y in s.reqs && MayPrecede(s, x, y)
    requires x == r ==> (InWindow(StepOf(s, r, input).reqs[r].req.pc) ==> InWindow(s.reqs[r].req.pc))
    requires y == r && Executes(s.reqs[r].req.pc, input) ==> !s.reqs[r].req.pc.Revoking?
    ensures MayPrecede(StepOf(s, r, input), x, y)
  {
    var s' := StepOf(s, r, input);
    var pc, pc' := s.reqs[x].req.pc, s'.reqs[x].req.pc;
    if InWindow(pc') {
      SameWindowUser(s, r, input, x);
      if Disturbed(s, x, WindowUser(pc)) {
        DisturbedStays(s, s', x, WindowUser(pc));
      }
    }
    RunsNoDelete(s, r, input, y);
    hide Inv, Grows, StepOf, Disturbed, WindowUser, Executes;
  }

  lemma DisturbedStays(s: State, s': State, x: nat, u: Uuid)
    requires s.log <= s'.log && Disturbed(s, x, u)
    ensures Disturbed(s', x, u)
  {
    var i, k :| 0 <= i < k < |s.log| && s.log[i].req == x && s.log[k].stmt == DeleteTokensOf(u);
    assert s'.log[i] == s.log[i] && s'.log[k] == s.log[k];
  }

  /** The step adds no delete to what `y` has run. */
  lemma RunsNoDelete(s: State, r: nat, input: Input, y: nat)
    requires Enabled(s, Step(r, input)) && y in s.reqs
    requires y == r && Executes(s.reqs[r].req.pc, input) ==> !s.reqs[r].req.pc.Revoking?
    ensures var f, f' := s.reqs[y], StepOf(s, r, input).reqs[y];
            (forall u :: DeleteTokensOf(u) in f'.req.ran ==> DeleteTokensOf(u) in f.req.ran)
    ensures forall q :: q in s.reqs ==> StepOf(s, r, input).reqs[q].after == s.reqs[q].after
    ensures forall q :: q in s.reqs && q != r ==> StepOf(s, r, input).reqs[q] == s.reqs[q]
  {
    StepRan(s.db, s.reqs[r].req, input);
    hide NextReq, NextTables, Record;
  }

  /** A request stays with its user while in the window. */
  lemma SameWindowUser(s: State, r: nat, input: Input, x: nat)
    requires Inv(s) && Enabled(s, Step(r, input)) && x in s.reqs
    requires InWindow(s.reqs[x].req.pc) && InWindow(StepOf(s, r, input).reqs[x].req.pc)
    ensures WindowUser(StepOf(s, r, input).reqs[x].req.pc) == WindowUser(s.reqs[x].req.pc)
  {
    hide Inv, Record, Effect;
  }

  /** The request that moves to the end may come last. */
  lemma MayComeLast(s: State, r: nat, input: Input, x: nat)
    requires Inv(s) && AllKnown(s) && Enabled(s, Step(r, input)) && Grows(s, StepOf(s, r, input)) && x in s.reqs && x != r
    requires AllSelects(s.reqs[r].req.ran) && Executes(s.reqs[r].req.pc, input)
    ensures MayPrecede(StepOf(s, r, input), x, r)
  {
    var s' := StepOf(s, r, input);
    var pc := s.reqs[x].req.pc;
    assert FlightOk(s, x);
    assert RequestKnown(s, x);
    StepRan(s.db, s.reqs[r].req, input);
    assert s'.reqs[x] == s.reqs[x];
    if InWindow(pc) {
      var i :| 0 <= i < |s.log| && s.log[i].req == x;
      assert s'.log[i] == s.log[i];
      assert s'.log[|s.log|].stmt == Pending(s.reqs[r].req.pc).value;
    }
    hide Inv, Grows, NextReq, NextTables, Record, WindowUser, InWindow, FlightOk, RequestKnown;
  }

  // ---------------------------------The four kinds of steps----------------------------------

  /** What a state needs for the order to be kept. */
  ghost predicate Arranged(s: State, ord: seq<nat>) {
    Inv(s) && AllKnown(s) && SerialAs(s, ord) && Ordered(s, ord)
  }

  /** Where `r` stands, the tables before and after its block. */
  lemma BlockFacts(s: State, a: seq<nat>, r: nat, b: seq<nat>)
    requires Arranged(s, a + [r] + b)
    ensures r in s.reqs && (forall q :: q in a || q in b ==> q in s.reqs)
    ensures var t1 := Serially(EMPTY, a, s.reqs); var t2 := BlockTables(t1, s.reqs[r]);
            && BlockReq(t1, s.reqs[r]) == s.reqs[r].req
            && RowsKnown(t1, s.ledger) && RowsKnown(t2, s.ledger) && Sane(t2, s.reqs[r].req)
            && Agrees(t2, b, s.reqs) && Serially(t2, b, s.reqs) == s.db
            && Wider(t1, s.db) && Wider(t2, s.db)
  {
    hide Inv, AllKnown, Ordered, BlockReq, BlockTables, RowsKnown, Sane;
    PartsOfOrder(s, a, r, b);
    SerialAround(EMPTY, a, r, b, s.reqs);
    var t1 := Serially(EMPTY, a, s.reqs);
    EmptyKnown(s.ledger);
    SerialKnown(s, EMPTY, a);
    BlockKnown(s, t1, r);
    BlockWidens(t1, s.reqs[r]);
    SerialWidens(BlockTables(t1, s.reqs[r]), b, s.reqs);
  }

  lemma EmptyKnown(l: map<Uuid, Life>)
    ensures RowsKnown(EMPTY, l)
  {
  }

  lemma BlockWidens(t: Tables, f: Flight)
    ensures Wider(t, BlockTables(t, f))
  {
    SoloWidens(t, Fresh(f), f.script);
  }

  lemma WithoutStatement(t: Tables, t': Tables, req: Req, input: Input)
    requires !Executes(req.pc, input)
    ensures NextReq(t, req, input) == NextReq(t', req, input) && NextTables(t, req, input) == t
    ensures InWindow(NextReq(t, req, input).pc) ==> InWindow(req.pc)
  {
    hide VerifyKind;
  }

  /** All pairs of an unchanged order. */
  lemma StillOrdered(s: State, r: nat, input: Input, ord: seq<nat>)
    requires Inv(s) && Enabled(s, Step(r, input)) && Inv(StepOf(s, r, input)) && Grows(s, StepOf(s, r, input))
    requires Covers(s, ord) && Ordered(s, ord)
    requires InWindow(StepOf(s, r, input).reqs[r].req.pc) ==> InWindow(s.reqs[r].req.pc)
    requires Executes(s.reqs[r].req.pc, input) ==> !s.reqs[r].req.pc.Revoking?
    ensures Covers(StepOf(s, r, input), ord) && Ordered(StepOf(s, r, input), ord)
  {
    var s' := StepOf(s, r, input);
    assert Covers(s', ord);
    hide Inv, Grows, StepOf, MayPrecede, Executes, InWindow;
    forall i, k | 0 <= i < k < |ord|
      ensures MayPrecede(s', ord[i], ord[k])
    {
      MayStillPrecede(s, r, input, ord[i], ord[k]);
    }
  }

  lemma LocalStep(s: State, r: nat, input: Input, a: seq<nat>, b: seq<nat>)
    requires Arranged(s, a + [r] + b) && Enabled(s, Step(r, input)) && !Executes(s.reqs[r].req.pc, input)
    requires Inv(StepOf(s, r, input)) && Grows(s, StepOf(s, r, input))
    ensures SerialAs(StepOf(s, r, input), a + [r] + b) && Ordered(StepOf(s, r, input), a + [r] + b)
  {
    hide Inv, Grows, AllKnown, SerialAs, Ordered, BlockTables, BlockReq, RowsKnown, Sane, NextReq, NextTables, InWindow, Executes;
    BlockFacts(s, a, r, b);
    var t2 := BlockTables(Serially(EMPTY, a, s.reqs), s.reqs[r]);
    WithoutStatement(t2, s.db, s.reqs[r].req, input);
    WithoutStatement(s.db, s.db, s.reqs[r].req, input);
    assert StepOf(s, r, input).reqs[r].req == NextReq(s.db, s.reqs[r].req, input);
    hide StepOf;
    assert Covers(s, a + [r] + b) by { ArrangedCovers(s, a + [r] + b); }
    InPlace(s, r, input, a, b);
    StillOrdered(s, r, input, a + [r] + b);
  }

  lemma ArrangedCovers(s: State, ord: seq<nat>)
    requires Arranged(s, ord)
    ensures Covers(s, ord) && Ordered(s, ord)
  {
  }

  /** All pairs of an order whose reader moves to the end. */
  lemma MovedOrdered(s: State, r: nat, input: Input, a: seq<nat>, b: seq<nat>)
    requires Inv(s) && AllKnown(s) && Enabled(s, Step(r, input)) && Executes(s.reqs[r].req.pc, input)
    requires Inv(StepOf(s, r, input)) && Grows(s, StepOf(s, r, input))
    requires Covers(s, a + [r] + b) && Ordered(s, a + [r] + b) && AllSelects(s.reqs[r].req.ran)
    ensures Covers(StepOf(s, r, input), a + b + [r]) && Ordered(StepOf(s, r, input), a + b + [r])
  {
    hide Inv, Grows, AllKnown, StepOf, MayPrecede, Executes, AllSelects, Enabled;
    var s', ord, ord' := StepOf(s, r, input), a + [r] + b, a + b + [r];
    MovedCovers(s, s', a, r, b) by { SameKeys(s, r, input); }
    PartsOfOrder(s, a, r, b);
    forall i, k | 0 <= i < k < |ord'|
      ensures MayPrecede(s', ord'[i], ord'[k])
    {
      if k == |a| + |b| {
        assert ord'[i] in a || ord'[i] in b;
        MayComeLast(s, r, input, ord'[i]);
      } else {
        var i1, k1 := OldPair(a, r, b, i, k);
        MayStillPrecede(s, r, input, ord[i1], ord[k1]);
      }
    }
  }

  lemma SameKeys(s: State, r: nat, input: Input)
    requires Enabled(s, Step(r, input))
    ensures StepOf(s, r, input).reqs.Keys == s.reqs.Keys
  {
  }

  lemma OldPair(a: seq<nat>, r: nat, b: seq<nat>, i: nat, k: nat) returns (i1: nat, k1: nat)
    requires r !in a && r !in b && i < k < |a| + |b|
    ensures i1 < k1 < |a + [r] + b| && (a + [r] + b)[i1] == (a + b + [r])[i] && (a + [r] + b)[k1] == (a + b + [r])[k]
    ensures (a + b + [r])[i] != r && (a + b + [r])[k] != r
  {
    i1, k1 := if i < |a| then i else i + 1, if k < |a| then k else k + 1;
  }

  /** The first statement of a request, and the store of a login. */
  lemma MovingStep(s: State, r: nat, input: Input, a: seq<nat>, b: seq<nat>)
    requires Arranged(s, a + [r] + b) && Enabled(s, Step(r, input)) && Executes(s.reqs[r].req.pc, input)
    requires AllSelects(s.reqs[r].req.ran)
    requires Inv(StepOf(s, r, input)) && Grows(s, StepOf(s, r, input))
    ensures SerialAs(StepOf(s, r, input), a + b + [r]) && Ordered(StepOf(s, r, input), a + b + [r])
  {
    hide Inv, Grows, AllKnown, StepOf, Ordered, BlockTables, BlockReq, Sane, Executes, AllSelects, Wider, SerialAs, Covers;
    var f := s.reqs[r];
    ArrangedCovers(s, a + [r] + b);
    BlockFacts(s, a, r, b);
    MoverFacts(s, Serially(EMPTY, a, s.reqs), r, input);
    ToEnd(s, r, input, a, b);
    MovedOrdered(s, r, input, a, b);
  }

  lemma MoverFacts(s: State, t: Tables, r: nat, input: Input)
    requires Enabled(s, Step(r, input)) && RowsKnown(t, s.ledger) && Wider(t, s.db)
    requires BlockReq(t, s.reqs[r]) == s.reqs[r].req && AllSelects(s.reqs[r].req.ran)
    ensures BlockTables(t, s.reqs[r]) == t && BlockTables(s.db, s.reqs[r]) == s.db
    ensures BlockReq(s.db, s.reqs[r]) == s.reqs[r].req
  {
    ReaderMoves(t, s.db, Fresh(s.reqs[r]), s.reqs[r].script);
  }

  /** The lookup of a refresh finds the same user in place. */
  lemma LookupStep(s: State, r: nat, input: Input, a: seq<nat>, b: seq<nat>)
    requires Arranged(s, a + [r] + b) && Enabled(s, Step(r, input)) && Executes(s.reqs[r].req.pc, input)
    requires s.reqs[r].req.pc.Resolving?
    requires Inv(StepOf(s, r, input)) && Grows(s, StepOf(s, r, input))
    ensures SerialAs(StepOf(s, r, input), a + [r] + b) && Ordered(StepOf(s, r, input), a + [r] + b)
  {
    hide Inv, Grows, AllKnown, SerialAs, Ordered, BlockTables, BlockReq, RowsKnown, NextReq, NextTables, Sane;
    BlockFacts(s, a, r, b);
    var t2 := BlockTables(Serially(EMPTY, a, s.reqs), s.reqs[r]);
    LookupMeets(t2, s.db, s.reqs[r].req, input);
    assert InWindow(s.reqs[r].req.pc);
    hide StepOf, InWindow;
    assert Covers(s, a + [r] + b) by { ArrangedCovers(s, a + [r] + b); }
    InPlace(s, r, input, a, b);
    StillOrdered(s, r, input, a + [r] + b);
  }

  lemma LookupMeets(t: Tables, t': Tables, req: Req, input: Input)
    requires req.pc.Resolving? && Executes(req.pc, input) && Sane(t, req) && Wider(t, t')
    ensures NextReq(t, req, input) == NextReq(t', req, input) && NextTables(t, req, input) == t
    ensures NextTables(t', req, input) == t'
  {
  }

  /** The store of a registration or refresh goes in where the session was opened. */
  lemma StoringStep(s: State, r: nat, input: Input, a: seq<nat>, b: seq<nat>)
    requires Arranged(s, a + [r] + b) && Enabled(s, Step(r, input)) && Executes(s.reqs[r].req.pc, input)
    requires s.reqs[r].req.pc.Storing? && !Disturbed(s, r, s.reqs[r].req.pc.user.id)
    requires Inv(StepOf(s, r, input)) && Grows(s, StepOf(s, r, input))
    ensures SerialAs(StepOf(s, r, input), a + [r] + b) && Ordered(StepOf(s, r, input), a + [r] + b)
  {
    hide Inv, Grows, AllKnown, SerialAs, Ordered, BlockTables, BlockReq, RowsKnown, NextReq, NextTables, InWindow, Sane, Effect, Disturbed;
    BlockFacts(s, a, r, b);
    var t2 := BlockTables(Serially(EMPTY, a, s.reqs), s.reqs[r]);
    var x := Pending(s.reqs[r].req.pc).value;
    StoreFits(s, r, t2);
    OthersApart(s, a, r, b);
    SerialCommutes(t2, x, b, s.reqs);
    StoreStepAt(s.db, s.reqs[r].req, input);
    StoreStepAt(t2, s.reqs[r].req, input);
    assert !InWindow(StepOf(s, r, input).reqs[r].req.pc) by { Stores(s, r, input); }
    hide StepOf;
    assert Covers(s, a + [r] + b) by { ArrangedCovers(s, a + [r] + b); }
    InPlace(s, r, input, a, b);
    StillOrdered(s, r, input, a + [r] + b);
  }

  lemma Stores(s: State, r: nat, input: Input)
    requires Enabled(s, Step(r, input)) && Executes(s.reqs[r].req.pc, input) && s.reqs[r].req.pc.Storing?
    ensures !InWindow(StepOf(s, r, input).reqs[r].req.pc)
  {
  }

  lemma StoreStepAt(t: Tables, req: Req, input: Input)
    requires req.pc.Storing? && Executes(req.pc, input) && Storable(t, Pending(req.pc).value)
    ensures NextReq(t, req, input) == req.(pc := Stored(req.pc.access, req.pc.refresh), ran := req.ran + [Pending(req.pc).value])
    ensures NextTables(t, req, input) == Effect(t, Pending(req.pc).value)
  {
  }

  lemma StoreFits(s: State, r: nat, t: Tables)
    requires Inv(s) && r in s.reqs && s.reqs[r].req.pc.Storing?
    requires RowsKnown(t, s.ledger) && Sane(t, s.reqs[r].req)
    ensures Storable(t, Pending(s.reqs[r].req.pc).value) && Storable(s.db, Pending(s.reqs[r].req.pc).value)
  {
    Parts(s);
    AtRequest(s, r);
    UnstoredToken(s, r);
    hide Inv, Flights, Mints, Births, Fates, Deliveries, FlightOk, ScriptOk, Vouched;
  }

  /** What runs after an undisturbed request leaves its user's tokens and its new token alone. */
  lemma OthersApart(s: State, a: seq<nat>, r: nat, b: seq<nat>)
    requires Arranged(s, a + [r] + b) && r in s.reqs
    requires s.reqs[r].req.pc.Storing? && !Disturbed(s, r, s.reqs[r].req.pc.user.id)
    ensures forall q :: q in b ==> q in s.reqs
    ensures forall q :: q in b ==> AllApart(s.reqs[q].req.ran, s.reqs[r].req.pc.refresh.jti, s.reqs[r].req.pc.user.id)
  {
    Parts(s);
    AtRequest(s, r);
    UnstoredToken(s, r);
    PartsOfOrder(s, a, r, b);
    hide Inv, Flights, Mints, Births, Fates, Deliveries, FlightOk, ScriptOk, PcOk, Agrees, AllApart, Disturbed, TablesOk, Covers;
    var ord := a + [r] + b;
    forall i | 0 <= i < |b|
      ensures AllApart(s.reqs[b[i]].req.ran, s.reqs[r].req.pc.refresh.jti, s.reqs[r].req.pc.user.id)
    {
      assert ord[|a|] == r && ord[|a| + 1 + i] == b[i];
      assert MayPrecede(s, r, b[i]);
      assert RequestKnown(s, b[i]);
      KnownApart(s.reqs[b[i]].req.ran, s.ledger, s.reqs[r].req.pc.refresh.jti, s.reqs[r].req.pc.user.id);
    }
  }

  lemma KnownApart(ran: seq<Stmt>, l: map<Uuid, Life>, jti: Uuid, u: Uuid)
    requires RanKnown(ran, l) && jti !in l && DeleteTokensOf(u) !in ran
    ensures AllApart(ran, jti, u)
  {
    forall y | y in ran
      ensures Apart(y, jti, u)
    {
      assert StmtKnown(y, l);
    }
  }

  // ---------------------------------All runs----------------------------------

  /** No logout deleted the tokens of a user between the first statement and the store of a
      registration or a refresh of that user. */
  ghost predicate Undisturbed(s: State) {
    forall i, k, j :: 0 <= i < k < j < |s.log| && s.log[j].stmt.InsertToken? && s.log[i].req == s.log[j].req
      && s.log[j].req in s.reqs && !s.reqs[s.log[j].req].req.call.Login?
      ==> s.log[k].stmt != DeleteTokensOf(s.log[j].stmt.userId)
  }

  lemma UndisturbedBefore(s: State, s': State)
    requires Grows(s, s') && Undisturbed(s')
    ensures Undisturbed(s)
  {
    hide LedgerGrows;
    forall i, k, j | 0 <= i < k < j < |s.log| && s.log[j].stmt.InsertToken? && s.log[i].req == s.log[j].req
      && s.log[j].req in s.reqs && !s.reqs[s.log[j].req].req.call.Login?
      ensures s.log[k].stmt != DeleteTokensOf(s.log[j].stmt.userId)
    {
      assert s'.log[i] == s.log[i] && s'.log[k] == s.log[k] && s'.log[j] == s.log[j];
      assert Continues(s.reqs[s.log[j].req], s'.reqs[s.log[j].req]);
    }
  }

  /** At its store, a registration or refresh has not been disturbed. */
  lemma UndisturbedAtStore(s: State, r: nat, input: Input)
    requires Enabled(s, Step(r, input)) && Executes(s.reqs[r].req.pc, input) && s.reqs[r].req.pc.Storing?
    requires !s.reqs[r].req.call.Login? && Undisturbed(StepOf(s, r, input))
    ensures !Disturbed(s, r, s.reqs[r].req.pc.user.id)
  {
    var s', u := StepOf(s, r, input), s.reqs[r].req.pc.user.id;
    StepRan(s.db, s.reqs[r].req, input);
    var j := |s.log|;
    assert s'.log[j].req == r && s'.log[j].stmt.InsertToken? && s'.log[j].stmt.userId == u;
    forall i, k | 0 <= i < k < |s.log| && s.log[i].req == r
      ensures s.log[k].stmt != DeleteTokensOf(u)
    {
      assert s'.log[i] == s.log[i] && s'.log[k] == s.log[k];
    }
  }

  lemma StepArranged(s: State, r: nat, input: Input, ord: seq<nat>) returns (ord': seq<nat>)
    requires Arranged(s, ord) && Enabled(s, Step(r, input)) && Undisturbed(StepOf(s, r, input))
    requires Inv(StepOf(s, r, input)) && Grows(s, StepOf(s, r, input))
    ensures SerialAs(StepOf(s, r, input), ord') && Ordered(StepOf(s, r, input), ord')
  {
    hide Inv, Grows, StepOf, SerialAs, Ordered, AllKnown, Agrees, AllSelects, Undisturbed, Disturbed;
    var req := s.reqs[r].req;
    ArrangedCovers(s, ord);
    var p :| 0 <= p < |ord| && ord[p] == r;
    var a, b := ord[..p], ord[p + 1..];
    assert ord == a + [r] + b;
    ord' := ord;
    if !Executes(req.pc, input) {
      LocalStep(s, r, input, a, b);
    } else if req.ran == [] || (req.call.Login? && req.pc.Storing?) {
      assert AllSelects(req.ran) by { ReaderHasRead(s, r); }
      MovingStep(s, r, input, a, b);
      ord' := a + b + [r];
    } else {
      LateStatements(s, r);
      if req.pc.Resolving? {
        LookupStep(s, r, input, a, b);
      } else {
        UndisturbedAtStore(s, r, input);
        StoringStep(s, r, input, a, b);
      }
    }
  }

  lemma ReaderHasRead(s: State, r: nat)
    requires AllKnown(s) && r in s.reqs
    requires s.reqs[r].req.ran == [] || (s.reqs[r].req.call.Login? && s.reqs[r].req.pc.Storing?)
    ensures AllSelects(s.reqs[r].req.ran)
  {
    assert RequestKnown(s, r);
  }

  /** A request that runs another statement than its first is at its lookup or store. */
  lemma LateStatements(s: State, r: nat)
    requires AllKnown(s) && r in s.reqs && Pending(s.reqs[r].req.pc).Some? && s.reqs[r].req.ran != []
    ensures s.reqs[r].req.pc.Resolving? || s.reqs[r].req.pc.Storing?
  {
    assert RequestKnown(s, r);
  }

  lemma BeginArranged(s: State, r: nat, server: nat, call: Call, ord: seq<nat>)
    requires Arranged(s, ord) && Enabled(s, Begin(r, server, call))
    ensures SerialAs(Apply(s, Begin(r, server, call)), ord + [r]) && Ordered(Apply(s, Begin(r, server, call)), ord + [r])
  {
    var s', ord' := Apply(s, Begin(r, server, call)), ord + [r];
    forall q | q in ord
      ensures r !in s.reqs[q].after && s'.reqs[q] == s.reqs[q]
    {
      assert FlightOk(s, q);
    }
    assert BlockReq(s.db, s'.reqs[r]) == s'.reqs[r].req;
    hide Inv, AllKnown, BlockReq, BlockTables, WindowUser, InWindow;
    SerialFrame(EMPTY, ord, s.reqs, s'.reqs);
    SerialAround(EMPTY, ord, r, [], s'.reqs);
    assert ord + [r] + [] == ord';
    assert BlockTables(s.db, s'.reqs[r]) == s.db by { NoScript(s.db, s'.reqs[r]); }
    forall i, k | 0 <= i < k < |ord'|
      ensures MayPrecede(s', ord'[i], ord'[k])
    {
      if k < |ord| {
        assert MayPrecede(s, ord[i], ord[k]);
      }
    }
  }

  lemma NoScript(t: Tables, f: Flight)
    requires f.script == []
    ensures BlockTables(t, f) == t
  {
  }

  /** Time and servers do not touch the order. */
  lemma QuietArranged(s: State, a: Action, ord: seq<nat>)
    requires Arranged(s, ord) && Enabled(s, a) && !a.Step? && !a.Begin?
    ensures SerialAs(Apply(s, a), ord) && Ordered(Apply(s, a), ord)
  {
    var s' := Apply(s, a);
    assert s'.reqs == s.reqs && s'.db == s.db && s'.log == s.log;
    hide Inv, AllKnown, StepOf, Agrees, Apply;
    forall i, k | 0 <= i < k < |ord|
      ensures MayPrecede(s', ord[i], ord[k])
    {
      assert MayPrecede(s, ord[i], ord[k]);
    }
  }

  lemma ActionArranged(s: State, a: Action, ord: seq<nat>) returns (ord': seq<nat>)
    requires Arranged(s, ord) && Enabled(s, a) && Undisturbed(Apply(s, a))
    ensures Arranged(Apply(s, a), ord')
  {
    hide Inv, AllKnown, StepOf, SerialAs, Ordered, Grows, Undisturbed;
    ActionKeepsInv(s, a);
    ActionKnown(s, a);
    ord' := ord;
    if a.Step? {
      ord' := StepArranged(s, a.r, a.input, ord);
    } else if a.Begin? {
      BeginArranged(s, a.r, a.server, a.call, ord);
      ord' := ord + [a.r];
    } else {
      QuietArranged(s, a, ord);
    }
  }

  lemma {:induction false} RunArranged(s: State, acts: seq<Action>, ord: seq<nat>) returns (ord': seq<nat>)
    requires Arranged(s, ord) && Valid(s, acts) && Undisturbed(Run(s, acts))
    ensures Arranged(Run(s, acts), ord')
    decreases |acts|
  {
    ord' := ord;
    if acts != [] {
      var s1 := Apply(s, acts[0]);
      assert Inv(s1) by { ActionKeepsInv(s, acts[0]); }
      RunKeepsInv(s1, acts[1..]);
      hide Arranged, Enabled, Apply, Inv;
      UndisturbedBefore(s1, Run(s1, acts[1..]));
      ord' := ActionArranged(s, acts[0], ord);
      ord' := RunArranged(s1, acts[1..], ord');
    }
  }

  /** `x` was finished when `y` began. */
  ghost predicate FinishedBefore(s: State, x: nat, y: nat) {
    y in s.reqs && x in s.reqs[y].after
  }

  ghost predicate InTime(s: State, ord: seq<nat>) {
    forall i, k :: 0 <= i < k < |ord| ==> !FinishedBefore(s, ord[k], ord[i])
  }

  /** There is an order of all requests in which, run one after the other on a fresh
      database with the inputs they had, each ends with the same response and after the
      same statements, the tables are the same, and no request comes before one that was
      finished when it began. */
  ghost predicate IsSerial(s: State) {
    exists ord :: SerialAs(s, ord) && InTime(s, ord)
  }

  /** Reduction to serial runs. Whatever requests interleave, fail or are dropped: a run is
      serial if no logout of a user deletes between the first statement and the store of a
      registration or refresh of that user. */
  lemma RunsAreSerial(acts: seq<Action>)
    requires Valid(INITIAL, acts) && Undisturbed(Run(INITIAL, acts))
    ensures IsSerial(Run(INITIAL, acts))
  {
    InitialInv();
    assert Arranged(INITIAL, []) by { StartArranged(); }
    var ord := RunArranged(INITIAL, acts, []);
    var s := Run(INITIAL, acts);
    hide Inv, AllKnown, SerialAs;
    assert SerialAs(s, ord);
    forall i, k | 0 <= i < k < |ord|
      ensures !FinishedBefore(s, ord[k], ord[i])
    {
      assert Covers(s, ord) by { ArrangedCovers(s, ord); }
      assert MayPrecede(s, ord[i], ord[k]);
    }
  }

  lemma StartArranged()
    ensures Arranged(INITIAL, [])
  {
    InitialInv();
  }
}
