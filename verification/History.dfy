/** The tables and the ledger are what the log of statements says. */
module History {
  import opened AuthCore
  import opened AuthDb
  import opened Machine
  import opened Ledger
  import opened Protocol

  /** The tables, the ledger and every reply are those of the statements in the log. */
  ghost predicate Logged(s: State) {
    && s.db == Replay(Stmts(s.log)) && s.ledger == LedgerOf(s.log)
    && (forall i :: 0 <= i < |s.log| ==> s.log[i].reply == Answer(Replay(Stmts(s.log)[..i]), s.log[i].stmt))
  }

  lemma StmtsExtend(log: seq<Entry>, e: Entry)
    ensures Stmts(log + [e]) == Stmts(log) + [e.stmt]
    ensures Replay(Stmts(log + [e])) == Effect(Replay(Stmts(log)), e.stmt)
    ensures LedgerOf(log + [e]) == Record(LedgerOf(log), e)
  {
    hide Effect, Record;
    assert Stmts(log + [e]) == Stmts(log) + [e.stmt];
    assert (Stmts(log) + [e.stmt])[..|log|] == Stmts(log);
    assert (log + [e])[..|log|] == log;
  }

  lemma StepLogged(s: State, r: nat, input: Input)
    requires Logged(s) && Enabled(s, Step(r, input))
    ensures Logged(StepOf(s, r, input))
  {
    var pc, s' := s.reqs[r].req.pc, StepOf(s, r, input);
    if Executes(pc, input) {
      var e := EntryOf(s, r);
      assert s'.log == s.log + [e] && s'.db == Effect(s.db, e.stmt) && s'.ledger == Record(s.ledger, e);
      assert e.reply == Answer(s.db, e.stmt);
      hide StepOf, Effect, Record, Answer, Pending;
      StmtsExtend(s.log, e);
      forall i | 0 <= i < |s'.log|
        ensures s'.log[i].reply == Answer(Replay(Stmts(s'.log)[..i]), s'.log[i].stmt)
      {
        assert Stmts(s'.log)[..i] == Stmts(s.log)[..i];
        if i == |s.log| {
          assert Stmts(s.log)[..i] == Stmts(s.log);
        }
      }
    } else {
      assert s'.log == s.log;
    }
  }

  lemma ActionLogged(s: State, a: Action)
    requires Logged(s) && Enabled(s, a)
    ensures Logged(Apply(s, a))
  {
    if a.Step? {
      StepLogged(s, a.r, a.input);
    }
    hide StepOf, Replay, LedgerOf, Answer, Stmts;
  }

  lemma {:induction false} RunLogged(s: State, acts: seq<Action>)
    requires Logged(s) && Valid(s, acts)
    ensures Logged(Run(s, acts))
    decreases |acts|
  {
    hide Logged, Enabled, Apply;
    if acts != [] {
      ActionLogged(s, acts[0]);
      RunLogged(Apply(s, acts[0]), acts[1..]);
    }
  }

  /** In every reachable state a consume of `jti` bound to `now` succeeds exactly when the
      log holds a store of it with a later expiry, and since then no successful consume of
      it and no delete for its owner. */
  lemma ConsumeAgreesWithLog(acts: seq<Action>, jti: Uuid, now: i64)
    requires Valid(INITIAL, acts)
    ensures var s := Run(INITIAL, acts); var xs := Stmts(s.log);
            && Logged(s)
            && (Answer(s.db, DeleteToken(jti, now)) == Affected(1) <==> StandsAfter(xs, jti, now))
  {
    RunLogged(INITIAL, acts);
    hide Logged, StandsAfter;
    ConsumeIsHistory(Stmts(Run(INITIAL, acts).log), jti, now);
  }
}
