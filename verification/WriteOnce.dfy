/** A write-once cell: SELECT by primary key, and INSERT when nothing was found, as
    two separate statements without a transaction. Any number of calls interleave;
    each may fail or crash at either statement. */
module WriteOnce {

  /** Where a call stands: before its SELECT, before its INSERT, or finished. */
  datatype Pc<V> = Selecting | Inserting(value: V) | Returned(value: V) | Failed | Crashed

  datatype Attempt<K, V> = Attempt(key: K, pc: Pc<V>)

  datatype Cell<K, V> = Cell(rows: map<K, V>, calls: map<nat, Attempt<K, V>>)

  /** `Go` runs the next statement of a call; `value` is what it would insert. */
  datatype Act<K, V> = Call(id: nat, key: K) | Go(id: nat, value: V) | Fault(id: nat) | Crash(id: nat)

  predicate Pending<K, V>(c: Cell<K, V>, id: nat) {
    id in c.calls && (c.calls[id].pc.Selecting? || c.calls[id].pc.Inserting?)
  }

  predicate Enabled<K, V>(c: Cell<K, V>, a: Act<K, V>) {
    if a.Call? then a.id !in c.calls else Pending(c, a.id)
  }

  /** The SELECT, and the early return when it finds a row. */
  function Selected<K(==), V>(rows: map<K, V>, key: K, value: V): Pc<V> {
    if key in rows then Returned(rows[key]) else Inserting(value)
  }

  /** The INSERT as seen by its caller: the primary key admits one row. */
  function Inserted<K(==), V>(rows: map<K, V>, key: K, value: V): Pc<V> {
    if key in rows then Failed else Returned(value)
  }

  /** The INSERT as seen by the table. */
  function RowsAfter<K(==), V>(rows: map<K, V>, key: K, value: V): map<K, V> {
    if key in rows then rows else rows[key := value]
  }

  function Apply<K(==), V>(c: Cell<K, V>, a: Act<K, V>): Cell<K, V>
    requires Enabled(c, a)
  {
    match a
    case Call(id, key) => c.(calls := c.calls[id := Attempt(key, Selecting)])
    case Fault(id) => c.(calls := c.calls[id := c.calls[id].(pc := Failed)])
    case Crash(id) => c.(calls := c.calls[id := c.calls[id].(pc := Crashed)])
    case Go(id, value) =>
      var key := c.calls[id].key;
      match c.calls[id].pc
      case Inserting(v) =>
        Cell(RowsAfter(c.rows, key, v), c.calls[id := Attempt(key, Inserted(c.rows, key, v))])
      case _ => c.(calls := c.calls[id := Attempt(key, Selected(c.rows, key, value))])
  }

  ghost predicate Valid<K(!new), V(!new)>(c: Cell<K, V>, acts: seq<Act<K, V>>)
    decreases |acts|
  {
    acts == [] || (Enabled(c, acts[0]) && Valid(Apply(c, acts[0]), acts[1..]))
  }

  function Run<K(!new), V(!new)>(c: Cell<K, V>, acts: seq<Act<K, V>>): Cell<K, V>
    requires Valid(c, acts)
    decreases |acts|
  {
    if acts == [] then c else Run(Apply(c, acts[0]), acts[1..])
  }

  /** Whoever returned a value returned the row's. */
  ghost predicate Agreed<K, V>(c: Cell<K, V>) {
    forall i :: i in c.calls && c.calls[i].pc.Returned? ==>
      c.calls[i].key in c.rows && c.calls[i].pc.value == c.rows[c.calls[i].key]
  }

  /** Rows and answers never change once they are there; keys of calls never change. */
  ghost predicate Keeps<K, V>(c: Cell<K, V>, c': Cell<K, V>) {
    && (forall k :: k in c.rows ==> k in c'.rows && c'.rows[k] == c.rows[k])
    && (forall i :: i in c.calls ==>
          && i in c'.calls && c'.calls[i].key == c.calls[i].key
          && (!Pending(c, i) ==> c'.calls[i] == c.calls[i]))
  }

  lemma StepAgrees<K, V>(c: Cell<K, V>, a: Act<K, V>)
    requires Agreed(c) && Enabled(c, a)
    ensures Agreed(Apply(c, a)) && Keeps(c, Apply(c, a))
  {
  }

  /** Agreement forever: over any run, all calls on one key that returned, before or
      during the run, returned one same value, which is the row and stays the row. */
  lemma {:induction false} Agreement<K(!new), V(!new)>(c: Cell<K, V>, acts: seq<Act<K, V>>)
    requires Agreed(c) && Valid(c, acts)
    ensures Agreed(Run(c, acts)) && Keeps(c, Run(c, acts))
    ensures forall i, j :: i in c.calls && j in Run(c, acts).calls
              && c.calls[i].pc.Returned? && Run(c, acts).calls[j].pc.Returned?
              && c.calls[i].key == Run(c, acts).calls[j].key
              ==> c.calls[i].pc == Run(c, acts).calls[j].pc
    decreases |acts|
  {
    if acts != [] {
      StepAgrees(c, acts[0]);
      Agreement(Apply(c, acts[0]), acts[1..]);
    }
  }

  /** A call whose SELECT comes after the first INSERT returns the row unless its
      SELECT fails or it crashes: it is never the one to insert, nor the loser of a race. */
  lemma {:induction false} LateCallReturnsRow<K(!new), V(!new)>(c: Cell<K, V>, acts: seq<Act<K, V>>, id: nat)
    requires Agreed(c) && Valid(c, acts)
    requires id in c.calls && c.calls[id].key in c.rows && c.calls[id].pc.Selecting?
    requires forall a :: a in acts ==> a != Fault(id) && a != Crash(id)
    ensures id in Run(c, acts).calls
    ensures Run(c, acts).calls[id].pc ==
            if exists a :: a in acts && a.Go? && a.id == id then Returned(c.rows[c.calls[id].key]) else Selecting
    decreases |acts|
  {
    if acts != [] {
      var c1 := Apply(c, acts[0]);
      StepAgrees(c, acts[0]);
      Agreement(c1, acts[1..]);
      assert forall a :: a in acts <==> a == acts[0] || a in acts[1..];
      if acts[0].Go? && acts[0].id == id {
        assert acts[0] in acts;
        assert !Pending(c1, id);
      } else {
        assert acts[0] in acts;
        assert c1.calls[id] == c.calls[id];
        LateCallReturnsRow(c1, acts[1..], id);
      }
    }
  }

  /** The loser of the race, about to insert where a row already is, never returns: it
      gets an error, or crashes first. */
  lemma {:induction false} LoserFails<K(!new), V(!new)>(c: Cell<K, V>, acts: seq<Act<K, V>>, id: nat)
    requires Agreed(c) && Valid(c, acts)
    requires id in c.calls && c.calls[id].key in c.rows && c.calls[id].pc.Inserting?
    ensures id in Run(c, acts).calls && Run(c, acts).calls[id].pc in {c.calls[id].pc, Failed, Crashed}
    decreases |acts|
  {
    if acts != [] {
      var c1 := Apply(c, acts[0]);
      StepAgrees(c, acts[0]);
      Agreement(c1, acts[1..]);
      if Pending(c1, id) {
        LoserFails(c1, acts[1..], id);
      }
    }
  }
}
