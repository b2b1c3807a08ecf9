/** Any number of servers and requests over one auth database, step by step in any
    order: a step of a request is a step of its machine, and each may fail at every
    foreign call and be dropped at every await. */
module Protocol {
  import opened AuthCore
  import opened AuthDb
  import opened Machine
  import opened Ledger
  import WriteOnce

  /** A request with its inputs so far, and the requests finished before it began. */
  datatype Flight = Flight(req: Req, script: seq<Input>, after: set<nat>)

  /** A token issued, and the request that issued it. */
  datatype Mint = Mint(claims: Claims, req: nat)

  /** `clock`, `db`, `boot` (the table `auth_config`, with the servers starting on it),
      `servers` and `reqs` are the system; the rest is its history. */
  datatype State = State(
    clock: u64,
    db: Tables,
    boot: WriteOnce.Cell<string, string>,
    servers: map<nat, Options>,
    reqs: map<nat, Flight>,
    log: seq<Entry>,
    ledger: map<Uuid, Life>,
    creators: map<Uuid, nat>,
    issued: map<Uuid, Mint>,
    ids: set<string>,
    delivered: set<Token>)

  datatype Action =
    | Tick(to: u64)
    | Launch(server: nat, opts: Options)
    | Boot(act: WriteOnce.Act<string, string>)
    | Begin(r: nat, server: nat, call: Call)
    | Step(r: nat, input: Input)

  const INITIAL: State :=
    State(0, EMPTY, WriteOnce.Cell(map[], map[]), map[], map[], [], map[], map[], map[], {}, {})

  // ---------------------------------Servers----------------------------------

  /** The server has its secret, so its routes are mounted. */
  predicate Built(s: State, server: nat) {
    server in s.servers && server in s.boot.calls && s.boot.calls[server].pc.Returned?
  }

  function ServerConfig(s: State, server: nat): Config
    requires Built(s, server)
  {
    ConfigOf(s.servers[server], s.boot.calls[server].pc.value)
  }

  // ---------------------------------Actions----------------------------------

  /** Clients hold what was delivered to them, and cannot sign. */
  predicate CanPresent(s: State, secret: string, call: Call) {
    (call.Refresh? || call.Logout?) && call.token.Jwt? && call.token.secret == secret ==> call.token in s.delivered
  }

  predicate Enabled(s: State, a: Action) {
    match a
    case Tick(to) => s.clock <= to
    case Launch(server, _) => server !in s.servers && server !in s.boot.calls
    case Boot(act) => !act.Call? && WriteOnce.Enabled(s.boot, act)
    case Begin(r, server, call) =>
      r !in s.reqs && Built(s, server) && CanPresent(s, ServerConfig(s, server).secret, call)
    case Step(r, input) => r in s.reqs && CanStep(s, s.reqs[r].req.pc, input)
  }

  /** Clock readings are current, ids fresh; only what can fail fails. */
  predicate CanStep(s: State, pc: Pc, input: Input) {
    && !Finished(pc)
    && (input.Go? ==> input.now == s.clock && input.seed !in s.ids && (input.ok || Failure(pc).Some?))
  }

  function OriginOf(call: Call): Origin {
    if call.Refresh? && call.token.Jwt? then Rotated(call.token.claims.jti) else SignIn
  }

  /** The log entry of the statement that request `r` is about to run. */
  function EntryOf(s: State, r: nat): Entry
    requires r in s.reqs && Pending(s.reqs[r].req.pc).Some?
  {
    var x := Pending(s.reqs[r].req.pc).value;
    Entry(r, OriginOf(s.reqs[r].req.call), x, Answer(s.db, x))
  }

  function IssuedAfter(issued: map<Uuid, Mint>, r: nat, pc: Pc, next: Pc): map<Uuid, Mint> {
    if pc.Identified? && next.HasAccess? then issued[next.access.jti := Mint(next.access, r)]
    else if pc.HasAccess? && next.HasPair? then issued[next.refresh.jti := Mint(next.refresh, r)]
    else issued
  }

  function DeliveredAfter(delivered: set<Token>, pc: Pc, next: Pc): set<Token> {
    if pc.Stored? && next.Done? && next.outcome.Tokens?
    then delivered + {next.outcome.access, next.outcome.refresh} else delivered
  }

  function CreatorsAfter(creators: map<Uuid, nat>, r: nat, pc: Pc, next: Pc): map<Uuid, nat> {
    if pc.Creating? && next.Identified? then creators[next.user.id := r] else creators
  }

  function StepOf(s: State, r: nat, input: Input): State
    requires r in s.reqs
  {
    var f := s.reqs[r];
    var next := NextReq(s.db, f.req, input);
    var entries := if Executes(f.req.pc, input) then [EntryOf(s, r)] else [];
    s.(db := NextTables(s.db, f.req, input),
       reqs := s.reqs[r := f.(req := next, script := f.script + [input])],
       log := s.log + entries,
       ledger := if entries == [] then s.ledger else Record(s.ledger, entries[0]),
       creators := CreatorsAfter(s.creators, r, f.req.pc, next.pc),
       issued := IssuedAfter(s.issued, r, f.req.pc, next.pc),
       ids := if input.Go? then s.ids + {input.seed} else s.ids,
       delivered := DeliveredAfter(s.delivered, f.req.pc, next.pc))
  }

  function FinishedRequests(s: State): set<nat> {
    set r | r in s.reqs && Finished(s.reqs[r].req.pc)
  }

  function Apply(s: State, a: Action): State
    requires Enabled(s, a)
  {
    match a
    case Tick(to) => s.(clock := to)
    case Launch(server, opts) =>
      s.(servers := s.servers[server := opts],
         boot := WriteOnce.Apply(s.boot, WriteOnce.Call(server, SIGNING_SECRET)))
    case Boot(act) => s.(boot := WriteOnce.Apply(s.boot, act))
    case Begin(r, server, call) =>
      s.(reqs := s.reqs[r := Flight(Req(ServerConfig(s, server), call, Start, []), [], FinishedRequests(s))])
    case Step(r, input) => StepOf(s, r, input)
  }

  ghost predicate Valid(s: State, acts: seq<Action>)
    decreases |acts|
  {
    acts == [] || (Enabled(s, acts[0]) && Valid(Apply(s, acts[0]), acts[1..]))
  }

  function Run(s: State, acts: seq<Action>): State
    requires Valid(s, acts)
    decreases |acts|
  {
    if acts == [] then s else Run(Apply(s, acts[0]), acts[1..])
  }
}
