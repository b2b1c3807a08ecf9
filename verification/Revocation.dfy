/** What a logout ends, and what it does not. */
module Revocation {
  import opened AuthCore
  import opened AuthDb
  import opened Machine
  import opened Ledger
  import opened Protocol
  import opened Invariant
  import opened Steps
  import WriteOnce

  /** The request is past the check, insert or consume that opens a session of `u`, and
      has not stored its token yet. */
  ghost predicate OpenFor(s: State, r: nat, u: Uuid) {
    r in s.reqs && InWindow(s.reqs[r].req.pc) && WindowUser(s.reqs[r].req.pc) == u
  }

  /** `j` is `a`, or was got from it by rotations. */
  predicate Descends(l: map<Uuid, Life>, j: Uuid, a: Uuid)
    decreases if j in l then l[j].depth else 0
  {
    && j in l
    && (j == a ||
        (l[j].origin.Rotated? && l[j].origin.jti in l && l[l[j].origin.jti].depth < l[j].depth
         && Descends(l, l[j].origin.jti, a)))
  }

  /** The logout `l` is about to delete. */
  ghost predicate Deletes(s: State, l: nat, input: Input) {
    Enabled(s, Step(l, input)) && s.reqs[l].req.pc.Revoking? && Executes(s.reqs[l].req.pc, input)
  }

  function LogoutUser(s: State, l: nat): Uuid
    requires l in s.reqs && s.reqs[l].req.pc.Revoking?
  {
    s.reqs[l].req.pc.claims.sub
  }

  /** The delete leaves no token of the user live. */
  lemma DeleteRevokes(s: State, l: nat, input: Input)
    requires Inv(s) && Deletes(s, l, input)
    ensures var u, s' := LogoutUser(s, l), StepOf(s, l, input);
            && u in s'.db.users
            && (forall j :: j in s'.ledger && s'.ledger[j].row.userId == u ==> !s'.ledger[j].fate.Live?)
  {
    hide Flights, Mints, Births, Fates, Deliveries, FlightOk, ScriptOk, TablesOk;
    Parts(s);
    AtRequest(s, l);
    PresentedToken(s, l);
    OwnerExists(s, s.reqs[l].req.pc.claims.jti);
  }

  /** All else stays as it was: other users' rows, and who is opening a session. */
  lemma DeleteKeepsOthers(s: State, l: nat, input: Input)
    requires Deletes(s, l, input)
    ensures var u, s' := LogoutUser(s, l), StepOf(s, l, input);
            && (forall j :: j in s.db.tokens && s.db.tokens[j].userId != u ==>
                  j in s'.db.tokens && s'.db.tokens[j] == s.db.tokens[j])
            && (forall r :: OpenFor(s', r, u) <==> OpenFor(s, r, u))
  {
    hide Record;
  }

  /** Revoked or consumed at the delete is revoked or consumed for good. */
  lemma RevokedForGood(s: State, s': State, j: Uuid)
    requires Inv(s) && Inv(s') && Grows(s, s') && j in s.ledger && !s.ledger[j].fate.Live?
    ensures j in s'.ledger && s'.ledger[j].fate == s.ledger[j].fate && j !in s'.db.tokens
  {
    hide Flights, Mints, Births, Fates, Deliveries, ReqsGrow;
  }

  /** Where a session of `u` that is alive after a logout started: with a request that was
      already opening it, or with a later login. */
  ghost predicate StartedAnew(s: State, s': State, u: Uuid, a: Uuid) {
    && a in s'.ledger && a !in s.ledger
    && var r := s'.ledger[a].storedBy;
       && r in s'.reqs
       && (OpenFor(s, r, u) || s'.reqs[r].req.call.Login?)
  }

  /** Who has spent a token and not stored yet is opening a session of its owner. */
  lemma SpenderOpens(s: State, r: nat, j: Uuid)
    requires Fates(s) && Flights(s) && j in s.ledger && s.ledger[j].fate == Spent(r)
    requires r in s.reqs ==> Stage(s.reqs[r].req.pc) < 10
    ensures OpenFor(s, r, s.ledger[j].row.userId)
  {
    assert FateOk(s, j);
    AtRequest(s, r);
    hide FlightOk, ScriptOk, Flights, Fates;
  }

  lemma BirthFacts(s: State, j: Uuid)
    requires Inv(s) && j in s.ledger
    ensures var life := s.ledger[j];
            && life.storedBy in s.reqs && Vouched(s, life.storedBy, life.row.userId)
            && life.origin == OriginOf(s.reqs[life.storedBy].req.call)
            && (life.origin.Rotated? ==>
                  && life.origin.jti in s.ledger
                  && s.ledger[life.origin.jti].fate == Spent(life.storedBy)
                  && s.ledger[life.origin.jti].row.userId == life.row.userId
                  && s.ledger[life.origin.jti].depth < life.depth)
  {
    hide TablesOk, Flights, Fates, Deliveries, Vouched;
    assert BirthOk(s, j);
    assert MintOk(s, j);
  }

  /** The successor of a token stored before the delete was being opened at the delete. */
  lemma OldParentIsOpen(s: State, s': State, u: Uuid, j: Uuid)
    requires Inv(s) && Inv(s') && Grows(s, s')
    requires forall i :: i in s.ledger && s.ledger[i].row.userId == u ==> !s.ledger[i].fate.Live?
    requires j in s'.ledger && j !in s.ledger && s'.ledger[j].row.userId == u
    requires s'.ledger[j].origin.Rotated? && s'.ledger[j].origin.jti in s.ledger
    ensures OpenFor(s, s'.ledger[j].storedBy, u)
  {
    var p, r := s'.ledger[j].origin.jti, s'.ledger[j].storedBy;
    BirthFacts(s', j);
    Parts(s);
    hide Inv, Flights, Fates, Vouched, OpenFor, ReqsGrow, Stage;
    assert Ages(s.ledger[p], s'.ledger[p]);
    SpenderOpens(s, r, p);
  }

  /** A new session of an old user is not a registration's, unless that was open. */
  lemma NewSignIn(s: State, s': State, u: Uuid, j: Uuid)
    requires Inv(s) && Inv(s') && Grows(s, s') && u in s.db.users
    requires j in s'.ledger && j !in s.ledger && s'.ledger[j].row.userId == u && s'.ledger[j].origin.SignIn?
    ensures StartedAnew(s, s', u, j)
  {
    hide Inv, OpenFor, Grows;
    var r := s'.ledger[j].storedBy;
    BirthFacts(s', j);
    if s'.reqs[r].req.call.Register? {
      hide Vouched;
      assert u in s'.creators && s'.creators[u] == r by { RegisterVouched(s', r, u); }
      RegisterOpens(s, s', r, u, j);
    }
  }

  lemma RegisterVouched(s: State, r: nat, u: Uuid)
    requires r in s.reqs && Vouched(s, r, u) && s.reqs[r].req.call.Register?
    ensures u in s.creators && s.creators[u] == r
  {
  }

  /** The creator of an old user that stores later was at its store or before it. */
  lemma RegisterOpens(s: State, s': State, r: nat, u: Uuid, j: Uuid)
    requires Inv(s) && Grows(s, s') && u in s.db.users && u in s'.creators && s'.creators[u] == r
    requires j in s'.ledger && j !in s.ledger && s'.ledger[j].storedBy == r
    ensures OpenFor(s, r, u)
  {
    hide Mints, Births, Fates, Deliveries, FlightOk, ScriptOk, ReqsGrow, WriteOnce.Keeps;
    assert CreatorOk(s, u);
    assert s.creators[u] == r;
    AtRequest(s, r);
  }

  /** Every token of `u` stored after the delete descends from such a start. */
  lemma {:induction false} TracesToNewStart(s: State, s': State, u: Uuid, j: Uuid) returns (a: Uuid)
    requires Inv(s) && Inv(s') && Grows(s, s') && u in s.db.users
    requires forall i :: i in s.ledger && s.ledger[i].row.userId == u ==> !s.ledger[i].fate.Live?
    requires j in s'.ledger && j !in s.ledger && s'.ledger[j].row.userId == u
    ensures Descends(s'.ledger, j, a) && StartedAnew(s, s', u, a)
    decreases if j in s'.ledger then s'.ledger[j].depth else 0
  {
    BirthFacts(s', j);
    hide Inv, Grows, OpenFor;
    a := j;
    if s'.ledger[j].origin.SignIn? {
      NewSignIn(s, s', u, j);
    } else if s'.ledger[j].origin.jti in s.ledger {
      OldParentIsOpen(s, s', u, j);
    } else {
      a := TracesToNewStart(s, s', u, s'.ledger[j].origin.jti);
    }
  }

  /** What a delete that left no live token of `u` means for every later state. */
  ghost predicate EndsSessions(s: State, s': State, u: Uuid) {
    && (forall j :: j in s.ledger && s.ledger[j].row.userId == u ==>
          j in s'.ledger && s'.ledger[j].fate == s.ledger[j].fate && j !in s'.db.tokens)
    && (forall j :: j in s'.ledger && j !in s.ledger && s'.ledger[j].row.userId == u ==>
          exists a :: Descends(s'.ledger, j, a) && StartedAnew(s, s', u, a))
  }

  lemma NoLiveTokenEndsSessions(s: State, s': State, u: Uuid)
    requires Inv(s) && Inv(s') && Grows(s, s') && u in s.db.users
    requires forall i :: i in s.ledger && s.ledger[i].row.userId == u ==> !s.ledger[i].fate.Live?
    ensures EndsSessions(s, s', u)
  {
    hide Inv, Grows, StartedAnew;
    forall j | j in s.ledger && s.ledger[j].row.userId == u
      ensures j in s'.ledger && s'.ledger[j].fate == s.ledger[j].fate && j !in s'.db.tokens
    {
      RevokedForGood(s, s', j);
    }
    forall j | j in s'.ledger && j !in s.ledger && s'.ledger[j].row.userId == u
      ensures exists a :: Descends(s'.ledger, j, a) && StartedAnew(s, s', u, a)
    {
      var a := TracesToNewStart(s, s', u, j);
    }
  }

  /** Exact revocation. After the delete of a logout of `u`, whatever runs: every token of
      `u` stored before keeps its fate, is never live and never consumed again; and every
      token of `u` stored later descends from one stored after the delete by a request
      that was already opening a session then, or by a login. */
  lemma LogoutIsExact(s: State, l: nat, input: Input, acts: seq<Action>)
    requires Reachable(s) && Deletes(s, l, input) && Valid(StepOf(s, l, input), acts)
    ensures var u, s1, s2 := LogoutUser(s, l), StepOf(s, l, input), Run(StepOf(s, l, input), acts);
            && TokensOf(s1.db, u) == {} && EndsSessions(s1, s2, u)
            && (forall r :: OpenFor(s1, r, u) <==> OpenFor(s, r, u))
            && (forall j :: j in s.db.tokens && s.db.tokens[j].userId != u ==>
                  j in s1.db.tokens && s1.db.tokens[j] == s.db.tokens[j])
  {
    hide Inv, Grows, StepOf, EndsSessions, TokensOf, OpenFor, Reachable, Executes, CanStep;
    ReachableInv(s);
    var u, s1 := LogoutUser(s, l), StepOf(s, l, input);
    DeleteRevokes(s, l, input);
    DeleteKeepsOthers(s, l, input);
    StepKeepsInv(s, l, input);
    NoRowsLeft(s1, u);
    RunKeepsInv(s1, acts);
    NoLiveTokenEndsSessions(s1, Run(s1, acts), u);
  }

  lemma NoRowsLeft(s: State, u: Uuid)
    requires Inv(s) && forall j :: j in s.ledger && s.ledger[j].row.userId == u ==> !s.ledger[j].fate.Live?
    ensures TokensOf(s.db, u) == {}
  {
    hide Flights, Mints, Births, Fates, Deliveries, WellFormed;
  }
}
