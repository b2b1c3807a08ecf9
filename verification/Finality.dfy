/** When a logout is final: exactly when nobody is opening a session of its user. */
module Finality {
  import opened AuthCore
  import opened AuthDb
  import opened Machine
  import opened Protocol
  import opened Invariant
  import opened Steps
  import opened Sessions
  import opened Identities
  import opened Revocation

  /** The token `a` was stored after `s`, by a login that passed its check after `s`. */
  ghost predicate FromNewLogin(s: State, s': State, u: Uuid, a: Uuid) {
    && a in s'.ledger && a !in s.ledger
    && var r := s'.ledger[a].storedBy;
       r in s'.reqs && s'.reqs[r].req.call.Login? && !OpenFor(s, r, u)
  }

  ghost predicate OnlyNewLogins(s: State, s': State, u: Uuid) {
    forall j :: j in s'.ledger && j !in s.ledger && s'.ledger[j].row.userId == u ==>
      exists a :: Descends(s'.ledger, j, a) && FromNewLogin(s, s', u, a)
  }

  /** Whatever runs from here, a token of `u` can only come of a new login. */
  ghost predicate LoggedOutForGood(s: State, u: Uuid) {
    forall acts :: Valid(s, acts) ==> OnlyNewLogins(s, Run(s, acts), u)
  }

  // ---------------------------------Fresh names----------------------------------

  lemma {:induction false} LongerThanAll(ids: set<string>) returns (n: nat)
    ensures forall x :: x in ids ==> |x| < n
    decreases |ids|
  {
    n := 0;
    if ids != {} {
      var x :| x in ids;
      var m := LongerThanAll(ids - {x});
      n := m + |x| + 1;
    }
  }

  /** Ids do not run out. */
  lemma FreshId(ids: set<string>) returns (x: string)
    ensures x !in ids
  {
    var n := LongerThanAll(ids);
    x := seq(n, _ => 'x');
  }

  // ---------------------------------An open session gets its token----------------------------------

  /** The step `r` takes goes on opening a session of `u`. */
  ghost predicate StaysOpen(s: State, r: nat, u: Uuid, input: Input)
    requires r in s.reqs
  {
    var s' := StepOf(s, r, input);
    OpenFor(s', r, u) && Stage(s.reqs[r].req.pc) < Stage(s'.reqs[r].req.pc) && s'.ledger == s.ledger
  }

  lemma IssueStep(s: State, r: nat, u: Uuid, input: Input)
    requires OpenFor(s, r, u) && Enabled(s, Step(r, input)) && input.Go? && input.ok
    requires !s.reqs[r].req.pc.Storing? && !s.reqs[r].req.pc.Resolving?
    ensures StaysOpen(s, r, u, input)
  {
  }

  lemma ResolveStep(s: State, r: nat, u: Uuid, input: Input)
    requires Inv(s) && OpenFor(s, r, u) && Enabled(s, Step(r, input)) && input.Go? && input.ok
    requires s.reqs[r].req.pc.Resolving?
    ensures StaysOpen(s, r, u, input)
  {
    LookupAnswers(s, r) by { Parts(s); }
    StatementStep(s, r, input);
    hide Inv, StepOf;
  }

  lemma StoreStep(s: State, r: nat, u: Uuid, input: Input)
    requires Inv(s) && OpenFor(s, r, u) && Enabled(s, Step(r, input)) && input.Go? && input.ok
    requires s.reqs[r].req.pc.Storing?
    ensures var j, s' := s.reqs[r].req.pc.refresh.jti, StepOf(s, r, input);
            j !in s.ledger && j in s'.ledger && j in s'.db.tokens && s'.ledger[j].storedBy == r && s'.ledger[j].row.userId == u
  {
    LookupAnswers(s, r) by { Parts(s); }
    UnstoredToken(s, r) by { Parts(s); AtRequest(s, r); }
    StatementStep(s, r, input);
    hide Inv, StepOf;
  }

  /** Running `acts` from `s`, request `r` stores the token `j` for `u`. */
  ghost predicate Lands(s: State, acts: seq<Action>, r: nat, u: Uuid, j: Uuid) {
    && Valid(s, acts) && j !in s.ledger && j in Run(s, acts).ledger && j in Run(s, acts).db.tokens
    && Run(s, acts).ledger[j].storedBy == r && Run(s, acts).ledger[j].row.userId == u
  }

  /** Whoever is opening a session can go on to store its token. */
  lemma {:induction false} StoreComes(s: State, r: nat, u: Uuid) returns (acts: seq<Action>, j: Uuid)
    requires Inv(s) && OpenFor(s, r, u)
    ensures Lands(s, acts, r, u, j)
    decreases if r in s.reqs then 12 - Stage(s.reqs[r].req.pc) else 0
  {
    var seed := FreshId(s.ids);
    var input := Go(s.clock, seed, true);
    assert Enabled(s, Step(r, input)) && Stage(s.reqs[r].req.pc) < 12;
    hide Inv, StepOf, OpenFor, Lands;
    if s.reqs[r].req.pc.Storing? {
      StoreStep(s, r, u, input);
      acts, j := [Step(r, input)], s.reqs[r].req.pc.refresh.jti;
      LandsAtOnce(s, r, input, u, j);
    } else {
      assert StaysOpen(s, r, u, input) by {
        if s.reqs[r].req.pc.Resolving? {
          ResolveStep(s, r, u, input);
        } else {
          IssueStep(s, r, u, input);
        }
      }
      StepKeepsInv(s, r, input);
      var rest: seq<Action>;
      rest, j := StoreComes(StepOf(s, r, input), r, u);
      acts := [Step(r, input)] + rest;
      LandsLater(s, r, input, rest, u, j);
    }
  }

  lemma LandsAtOnce(s: State, r: nat, input: Input, u: Uuid, j: Uuid)
    requires Enabled(s, Step(r, input)) && j !in s.ledger
    requires j in StepOf(s, r, input).ledger && j in StepOf(s, r, input).db.tokens
    requires StepOf(s, r, input).ledger[j].storedBy == r && StepOf(s, r, input).ledger[j].row.userId == u
    ensures Lands(s, [Step(r, input)], r, u, j)
  {
    hide StepOf;
    var acts := [Step(r, input)];
    assert acts[1..] == [] && Apply(s, acts[0]) == StepOf(s, r, input);
    assert Valid(StepOf(s, r, input), acts[1..]) && Run(StepOf(s, r, input), acts[1..]) == StepOf(s, r, input);
  }

  lemma LandsLater(s: State, r: nat, input: Input, rest: seq<Action>, u: Uuid, j: Uuid)
    requires Enabled(s, Step(r, input)) && StepOf(s, r, input).ledger == s.ledger
    requires Lands(StepOf(s, r, input), rest, r, u, j)
    ensures Lands(s, [Step(r, input)] + rest, r, u, j)
  {
    hide StepOf;
    var acts := [Step(r, input)] + rest;
    assert acts[1..] == rest && Apply(s, acts[0]) == StepOf(s, r, input);
  }

  /** What an old token descends from is old. */
  lemma {:induction false} OldForebears(s: State, s': State, j: Uuid, a: Uuid)
    requires Births(s) && LedgerGrows(s, s') && j in s.ledger && Descends(s'.ledger, j, a)
    ensures a in s.ledger
    decreases if j in s'.ledger then s'.ledger[j].depth else 0
  {
    assert BirthOk(s, j) && Ages(s.ledger[j], s'.ledger[j]);
    hide Births, BirthOk, LedgerGrows;
    if j != a {
      OldForebears(s, s', s'.ledger[j].origin.jti, a);
    }
  }

  /** The token such a request stores does not come of a new login. */
  lemma NotOfNewLogin(s: State, s': State, r: nat, u: Uuid, j: Uuid)
    requires Inv(s) && Inv(s') && Grows(s, s') && OpenFor(s, r, u)
    requires j !in s.ledger && j in s'.ledger && s'.ledger[j].storedBy == r && s'.ledger[j].row.userId == u
    ensures !OnlyNewLogins(s, s', u)
  {
    hide Inv, Grows, FromNewLogin;
    if a :| Descends(s'.ledger, j, a) && FromNewLogin(s, s', u, a) {
      assert a != j by { NewLoginFacts(s, s', u, a); }
      BirthFacts(s', j);
      assert s'.ledger[j].origin.jti in s.ledger by { ParentIsOld(s, s', r, u, j); }
      assert LedgerGrows(s, s') by { GrownLedger(s, s'); }
      OldForebears(s, s', s'.ledger[j].origin.jti, a) by { Parts(s); }
      NewLoginFacts(s, s', u, a);
    }
  }

  lemma GrownLedger(s: State, s': State)
    requires Grows(s, s')
    ensures LedgerGrows(s, s')
  {
  }

  lemma NewLoginFacts(s: State, s': State, u: Uuid, a: Uuid)
    requires FromNewLogin(s, s', u, a)
    ensures a in s'.ledger && a !in s.ledger && !OpenFor(s, s'.ledger[a].storedBy, u)
  {
  }

  lemma ParentIsOld(s: State, s': State, r: nat, u: Uuid, j: Uuid)
    requires Inv(s) && Inv(s') && Grows(s, s') && OpenFor(s, r, u)
    requires j in s'.ledger && s'.ledger[j].storedBy == r && s'.ledger[j].origin.Rotated?
    ensures s'.ledger[j].origin.jti in s.ledger
  {
    assert Continues(s.reqs[r], s'.reqs[r]);
    hide Grows;
    BirthFacts(s', j);
    ConsumerSpent(s, r);
    hide Inv;
  }

  // ---------------------------------Finality----------------------------------

  /** Finality of logout: after its delete, tokens of the user can only come of logins that
      pass their check later, exactly if at the delete no request of the user was between
      the check, insert or consume that opens a session and the store. */
  lemma LogoutIsFinal(s: State, l: nat, input: Input)
    requires Reachable(s) && Deletes(s, l, input)
    ensures LoggedOutForGood(StepOf(s, l, input), LogoutUser(s, l))
            <==> forall r :: !OpenFor(s, r, LogoutUser(s, l))
  {
    ReachableInv(s);
    FinalIff(s, l, input);
  }

  lemma FinalIff(s: State, l: nat, input: Input)
    requires Inv(s) && Deletes(s, l, input)
    ensures LoggedOutForGood(StepOf(s, l, input), LogoutUser(s, l))
            <==> forall r :: !OpenFor(s, r, LogoutUser(s, l))
  {
    hide Inv, Grows, StepOf, OnlyNewLogins, TokensOf, OpenFor, Executes, CanStep;
    var u, s1 := LogoutUser(s, l), StepOf(s, l, input);
    DeleteRevokes(s, l, input);
    DeleteKeepsOthers(s, l, input);
    StepKeepsInv(s, l, input);
    if r :| OpenFor(s1, r, u) {
      var acts, j := StoreComes(s1, r, u);
      RunKeepsInv(s1, acts);
      NotOfNewLogin(s1, Run(s1, acts), r, u, j);
    } else {
      forall acts | Valid(s1, acts)
        ensures OnlyNewLogins(s1, Run(s1, acts), u)
      {
        RunKeepsInv(s1, acts);
        NoLiveTokenEndsSessions(s1, Run(s1, acts), u);
        NobodyOpen(s1, Run(s1, acts), u);
      }
    }
  }

  lemma NobodyOpen(s: State, s': State, u: Uuid)
    requires EndsSessions(s, s', u) && forall r :: !OpenFor(s, r, u)
    ensures OnlyNewLogins(s, s', u)
  {
    hide OpenFor, Descends;
    forall j | j in s'.ledger && j !in s.ledger && s'.ledger[j].row.userId == u
      ensures exists a :: Descends(s'.ledger, j, a) && FromNewLogin(s, s', u, a)
    {
      var a :| Descends(s'.ledger, j, a) && StartedAnew(s, s', u, a);
      assert FromNewLogin(s, s', u, a);
    }
  }
}
