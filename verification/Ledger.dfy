/** What has happened to every refresh token ever stored, read off the statements run. */
module Ledger {
  import opened AuthCore
  import opened AuthDb

  /** A session opens with a sign-in and goes on by rotation of a consumed token. */
  datatype Origin = SignIn | Rotated(jti: Uuid)

  datatype Fate = Live | Spent(req: nat) | Withdrawn(req: nat)

  /** `root` is the sign-in token of the session, `depth` the rotations since. */
  datatype Life = Life(row: TokenRow, storedBy: nat, origin: Origin, root: Uuid, depth: nat, fate: Fate)

  /** A statement run for request `req`. */
  datatype Entry = Entry(req: nat, origin: Origin, stmt: Stmt, reply: Reply)

  function Root(l: map<Uuid, Life>, jti: Uuid, origin: Origin): Uuid {
    if origin.Rotated? && origin.jti in l then l[origin.jti].root else jti
  }

  function Depth(l: map<Uuid, Life>, origin: Origin): nat {
    if origin.Rotated? && origin.jti in l then l[origin.jti].depth + 1 else 0
  }

  function Withdraw(life: Life, userId: Uuid, req: nat): Life {
    if life.fate.Live? && life.row.userId == userId then life.(fate := Withdrawn(req)) else life
  }

  function Record(l: map<Uuid, Life>, e: Entry): map<Uuid, Life> {
    match e.stmt
    case InsertToken(jti, _, _, _) =>
      if e.reply.Inserted?
      then l[jti := Life(RowOf(e.stmt), e.req, e.origin, Root(l, jti, e.origin), Depth(l, e.origin), Live)]
      else l
    case DeleteToken(jti, _) =>
      if e.reply == Affected(1) && jti in l then l[jti := l[jti].(fate := Spent(e.req))] else l
    case DeleteTokensOf(userId) => map j | j in l :: Withdraw(l[j], userId, e.req)
    case _ => l
  }

  function LedgerOf(log: seq<Entry>): map<Uuid, Life> {
    if log == [] then map[] else Record(LedgerOf(log[..|log| - 1]), log[|log| - 1])
  }

  function Stmts(log: seq<Entry>): seq<Stmt> {
    seq(|log|, i requires 0 <= i < |log| => log[i].stmt)
  }

  /** The table holds the rows of the live tokens, and nothing else. */
  ghost predicate Mirrors(l: map<Uuid, Life>, t: Tables) {
    && (forall j :: j in t.tokens ==> j in l && l[j].fate.Live? && l[j].row == t.tokens[j])
    && (forall j :: j in l && l[j].fate.Live? ==> j in t.tokens)
  }

  lemma RecordMirrors(l: map<Uuid, Life>, t: Tables, e: Entry)
    requires Mirrors(l, t) && e.reply == Answer(t, e.stmt)
    ensures Mirrors(Record(l, e), Effect(t, e.stmt))
  {
  }
}
