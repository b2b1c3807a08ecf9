/** The consumer's profiles, created on first access: consumer/src/db/mod.rs behind the
    extractor, as in consumer/src/lib.rs. */
module Profiles {
  import opened AuthCore
  import opened Protocol
  import opened Invariant
  import opened Steps
  import opened Identities
  import opened Answers
  import WriteOnce

  datatype UserProfile = UserProfile(id: Uuid, username: string, createdAt: i64)

  class AppDb {
    var userProfiles: map<Uuid, UserProfile>

    constructor ()
      ensures userProfiles == map[]
    {
      userProfiles := map[];
    }

    /** Two statements; here nobody comes in between. */
    method FindOrCreateProfile(userId: Uuid, username: string, now: u64, selectUp: bool, insertUp: bool)
      returns (r: Result<UserProfile>)
      modifies this
      ensures r.Ok? <==> selectUp && (userId in old(userProfiles) || insertUp)
      ensures r.Err? ==> r.error == Database
      ensures r.Ok? ==> r.value == if userId in old(userProfiles) then old(userProfiles)[userId]
                                   else UserProfile(userId, username, AsI64(now))
      ensures r.Ok? ==>
                && userId in userProfiles && r.value == userProfiles[userId]
                && WriteOnce.Selected(old(userProfiles), userId, UserProfile(userId, username, AsI64(now)))
                   in {WriteOnce.Returned(r.value), WriteOnce.Inserting(r.value)}
      ensures userProfiles == if r.Ok? then WriteOnce.RowsAfter(old(userProfiles), userId, UserProfile(userId, username, AsI64(now)))
                              else old(userProfiles)
    {
      if !selectUp {
        return Err(Database);
      }
      if userId in userProfiles {
        return Ok(userProfiles[userId]);
      }
      if !insertUp {
        return Err(Database);
      }
      var profile := UserProfile(userId, username, AsI64(now));
      userProfiles := userProfiles[userId := profile];
      r := Ok(profile);
    }
  }

  // ---------------------------------First accesses over the auth protocol----------------------------------

  /** The auth protocol, the profile table with the calls on it, and the claims behind
      each call. */
  datatype World = World(auth: State, profiles: WriteOnce.Cell<Uuid, UserProfile>, visits: map<nat, Claims>)

  /** `Serve` runs the next statement of a visit, `now` being the reading it may insert. */
  datatype Move =
    | Auth(a: Action)
    | Visit(id: nat, server: nat, token: Token)
    | Serve(id: nat, now: u64)
    | Lose(id: nat)
    | Abandon(id: nat)

  const EMPTY_WORLD: World := World(INITIAL, WriteOnce.Cell(map[], map[]), map[])

  ghost predicate CanMove(w: World, m: Move) {
    match m
    case Auth(a) => Enabled(w.auth, a)
    case Visit(id, server, token) =>
      && id !in w.profiles.calls && id !in w.visits && Arrives(w.auth, server, token)
      && Extract(token, ServerConfig(w.auth, server), w.auth.clock).Ok?
    case Serve(id, _) => WriteOnce.Pending(w.profiles, id) && id in w.visits
    case Lose(id) => WriteOnce.Pending(w.profiles, id)
    case Abandon(id) => WriteOnce.Pending(w.profiles, id)
  }

  ghost function Moved(w: World, m: Move): World
    requires CanMove(w, m)
  {
    match m
    case Auth(a) => w.(auth := Apply(w.auth, a))
    case Visit(id, server, token) =>
      w.(profiles := WriteOnce.Apply(w.profiles, WriteOnce.Call(id, token.claims.sub)),
         visits := w.visits[id := token.claims])
    case Serve(id, now) =>
      var c := w.visits[id];
      w.(profiles := WriteOnce.Apply(w.profiles, WriteOnce.Go(id, UserProfile(c.sub, c.username, AsI64(now)))))
    case Lose(id) => w.(profiles := WriteOnce.Apply(w.profiles, WriteOnce.Fault(id)))
    case Abandon(id) => w.(profiles := WriteOnce.Apply(w.profiles, WriteOnce.Crash(id)))
  }

  ghost predicate CanRun(w: World, ms: seq<Move>)
    decreases |ms|
  {
    ms == [] || (CanMove(w, ms[0]) && CanRun(Moved(w, ms[0]), ms[1..]))
  }

  ghost function RunWorld(w: World, ms: seq<Move>): World
    requires CanRun(w, ms)
    decreases |ms|
  {
    if ms == [] then w else RunWorld(Moved(w, ms[0]), ms[1..])
  }

  /** `p` is a profile of user `u` under the name the auth database has. */
  ghost predicate TrueName(s: State, u: Uuid, p: UserProfile) {
    p.id == u && u in s.db.users && p.username == s.db.users[u].username
  }

  ghost predicate VisitOk(w: World, id: nat)
    requires id in w.profiles.calls
  {
    && id in w.visits && w.profiles.calls[id].key == w.visits[id].sub
    && w.visits[id].sub in w.auth.db.users && w.visits[id].username == w.auth.db.users[w.visits[id].sub].username
    && (w.profiles.calls[id].pc.Inserting? ==> TrueName(w.auth, w.visits[id].sub, w.profiles.calls[id].pc.value))
  }

  ghost predicate WorldInv(w: World) {
    && Inv(w.auth) && WriteOnce.Agreed(w.profiles)
    && (forall id :: id in w.profiles.calls ==> VisitOk(w, id))
    && (forall u :: u in w.profiles.rows ==> TrueName(w.auth, u, w.profiles.rows[u]))
  }

  ghost predicate WorldGrows(w: World, w': World) {
    && WriteOnce.Keeps(w.profiles, w'.profiles)
    && (forall u :: u in w.auth.db.users ==> u in w'.auth.db.users && w'.auth.db.users[u] == w.auth.db.users[u])
  }

  lemma AuthKeepsWorld(w: World, a: Action)
    requires WorldInv(w) && CanMove(w, Auth(a))
    ensures WorldInv(Moved(w, Auth(a))) && WorldGrows(w, Moved(w, Auth(a)))
  {
    hide Inv, Apply, Enabled, Grows;
    ActionKeepsInv(w.auth, a);
    UsersStay(w.auth, Apply(w.auth, a));
    assert Moved(w, Auth(a)) == w.(auth := Apply(w.auth, a));
    assert WriteOnce.Keeps(w.profiles, w.profiles);
    hide Moved, CanMove, WriteOnce.Keeps, WriteOnce.Agreed, WriteOnce.Apply;
  }

  lemma UsersStay(s: State, s': State)
    requires Grows(s, s')
    ensures forall u :: u in s.db.users ==> u in s'.db.users && s'.db.users[u] == s.db.users[u]
  {
    hide ReqsGrow, LedgerGrows, WriteOnce.Keeps;
  }

  lemma VisitKeepsWorld(w: World, id: nat, server: nat, token: Token)
    requires WorldInv(w) && CanMove(w, Visit(id, server, token))
    ensures WorldInv(Moved(w, Visit(id, server, token))) && WorldGrows(w, Moved(w, Visit(id, server, token)))
  {
    hide Inv;
    AcceptedWasIssued(w.auth, token);
    WriteOnce.StepAgrees(w.profiles, WriteOnce.Call(id, token.claims.sub));
  }

  lemma TableKeepsWorld(w: World, m: Move)
    requires WorldInv(w) && CanMove(w, m) && (m.Serve? || m.Lose? || m.Abandon?)
    ensures WorldInv(Moved(w, m)) && WorldGrows(w, Moved(w, m))
  {
    hide Inv;
    var c := w.visits[m.id];
    var act := if m.Serve? then WriteOnce.Go(m.id, UserProfile(c.sub, c.username, AsI64(m.now)))
               else if m.Lose? then WriteOnce.Fault(m.id) else WriteOnce.Crash(m.id);
    WriteOnce.StepAgrees(w.profiles, act);
    assert Moved(w, m) == w.(profiles := WriteOnce.Apply(w.profiles, act));
    hide Moved, CanMove, WriteOnce.Keeps, WriteOnce.Agreed;
  }

  lemma MoveKeepsWorld(w: World, m: Move)
    requires WorldInv(w) && CanMove(w, m)
    ensures WorldInv(Moved(w, m)) && WorldGrows(w, Moved(w, m))
  {
    hide WorldInv, WorldGrows, Moved;
    match m
    case Auth(a) => AuthKeepsWorld(w, a);
    case Visit(id, server, token) => VisitKeepsWorld(w, id, server, token);
    case _ => TableKeepsWorld(w, m);
  }

  lemma {:induction false} RunKeepsWorld(w: World, ms: seq<Move>)
    requires WorldInv(w) && CanRun(w, ms)
    ensures WorldInv(RunWorld(w, ms)) && WorldGrows(w, RunWorld(w, ms))
    decreases |ms|
  {
    hide WorldInv, CanMove, Moved;
    if ms != [] {
      MoveKeepsWorld(w, ms[0]);
      RunKeepsWorld(Moved(w, ms[0]), ms[1..]);
    }
  }

  ghost predicate WorldReachable(w: World) {
    exists ms :: CanRun(EMPTY_WORLD, ms) && RunWorld(EMPTY_WORLD, ms) == w
  }

  lemma WorldReachableInv(w: World)
    requires WorldReachable(w)
    ensures WorldInv(w)
  {
    var ms :| CanRun(EMPTY_WORLD, ms) && RunWorld(EMPTY_WORLD, ms) == w;
    InitialInv();
    RunKeepsWorld(EMPTY_WORLD, ms);
  }

  /** A statement of a visit: the row there is, or else a profile of the visitor of that
      time, which is inserted unless another row came first. */
  lemma ServeDecides(w: World, id: nat, now: u64)
    requires WorldReachable(w) && CanMove(w, Serve(id, now))
    ensures id in w.visits && w.profiles.calls[id].key == w.visits[id].sub
    ensures var c, w' := w.visits[id], Moved(w, Serve(id, now));
            var pc, pc' := w.profiles.calls[id].pc, w'.profiles.calls[id].pc;
            && (pc.Selecting? ==>
                  && w'.profiles.rows == w.profiles.rows
                  && pc' == if c.sub in w.profiles.rows then WriteOnce.Returned(w.profiles.rows[c.sub])
                            else WriteOnce.Inserting(UserProfile(c.sub, c.username, AsI64(now))))
            && (pc.Inserting? ==>
                  if c.sub in w.profiles.rows then pc' == WriteOnce.Failed && w'.profiles.rows == w.profiles.rows
                  else pc' == WriteOnce.Returned(pc.value) && w'.profiles.rows == w.profiles.rows[c.sub := pc.value])
  {
    WorldReachableInv(w);
    hide Inv;
  }

  lemma {:induction false} AuthIsReachable(w: World, ms: seq<Move>)
    requires Reachable(w.auth) && CanRun(w, ms)
    ensures Reachable(RunWorld(w, ms).auth)
    decreases |ms|
  {
    hide Reachable, Enabled, Apply;
    if ms != [] {
      assert Reachable(Moved(w, ms[0]).auth) by {
        if ms[0].Auth? {
          Extend(w.auth, [], ms[0].a);
          StaysReachable(w.auth, [] + [ms[0].a]);
        }
      }
      AuthIsReachable(Moved(w, ms[0]), ms[1..]);
    }
  }

  /** Whose first access is served: a delivered token gets through to the profiles exactly
      if it is an access token within its expiry and the leeway of the server. */
  lemma VisitsAreServed(w: World, id: nat, server: nat, token: Token)
    requires WorldReachable(w) && Built(w.auth, server) && token in w.auth.delivered
    requires id !in w.profiles.calls && id !in w.visits
    ensures token.Jwt?
    ensures CanMove(w, Visit(id, server, token)) <==>
              token.claims.kind == Access && w.auth.clock <= token.claims.exp + w.auth.servers[server].leeway
  {
    var ms :| CanRun(EMPTY_WORLD, ms) && RunWorld(EMPTY_WORLD, ms) == w;
    assert Reachable(INITIAL) by { assert Valid(INITIAL, []) && Run(INITIAL, []) == INITIAL; }
    AuthIsReachable(EMPTY_WORLD, ms);
    ExtractorDecides(w.auth, [], token, server);
    hide Reachable, Extract, ServerConfig;
  }

  /** The call `id` answered with the profile `p`. */
  predicate Answered(w: World, id: nat, p: UserProfile) {
    id in w.profiles.calls && w.profiles.calls[id].pc == WriteOnce.Returned(p)
  }

  /** Profile agreement: over any interleaving of first accesses, one profile a user is
      ever created and it never changes; all answers for that user, now or later, are that
      profile; and its name is the user's name in the auth database. */
  lemma ProfilesAgree(w: World, ms: seq<Move>, i: nat, j: nat, p: UserProfile, q: UserProfile)
    requires WorldReachable(w) && CanRun(w, ms) && Answered(w, i, p) && Answered(RunWorld(w, ms), j, q) && p.id == q.id
    ensures p == q && Answered(RunWorld(w, ms), i, p)
    ensures p.id in w.profiles.rows && w.profiles.rows[p.id] == p
    ensures p.id in RunWorld(w, ms).profiles.rows && RunWorld(w, ms).profiles.rows[p.id] == p
    ensures p.id in RunWorld(w, ms).auth.db.users && RunWorld(w, ms).auth.db.users[p.id].username == p.username
  {
    WorldReachableInv(w);
    RunKeepsWorld(w, ms);
    hide Inv, CanRun, RunWorld;
  }
}
