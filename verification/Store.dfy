/** The alert history table: collector/src/store.rs. */
module Store {
  import opened Timestamps

  /** A row: the ts column, and the stored body, which carries the instant again. */
  datatype Row<T> = Row(stamp: string, at: Instant, body: T)

  type Table<T> = map<string, Row<T>>

  datatype Op<T> = Insert(id: string, at: Instant, body: T) | Prune(cutoff: Instant) | ClearAll

  /** The statements as the database executes them: rows are compared by the text of their ts column. */
  function Execute<T>(rows: Table<T>, op: Op<T>): Table<T> {
    match op
    case Insert(id, at, body) => rows[id := Row(Text(at), at, body)]
    case Prune(cutoff) => map id | id in rows && !Less(rows[id].stamp, Text(cutoff)) :: rows[id]
    case ClearAll => map[]
  }

  function After<T>(ops: seq<Op<T>>): Table<T> {
    if ops == [] then map[] else Execute(After(ops[..|ops| - 1]), ops[|ops| - 1])
  }

  predicate Sound<T>(op: Op<T>) {
    match op
    case Insert(_, at, _) => Valid(at)
    case Prune(cutoff) => Valid(cutoff)
    case ClearAll => true
  }

  ghost predicate Stamped<T>(rows: Table<T>) {
    forall id <- rows :: Valid(rows[id].at) && rows[id].stamp == Text(rows[id].at)
  }

  lemma {:induction false} AlwaysStamped<T>(ops: seq<Op<T>>)
    requires forall op <- ops :: Sound(op)
    ensures Stamped(After(ops))
  {
    if ops != [] {
      assert ops[|ops| - 1] in ops;
      AlwaysStamped(ops[..|ops| - 1]);
    }
  }

  /** Rows not older than the cutoff. */
  ghost function Recent<T>(rows: Table<T>, cutoff: Instant): Table<T> {
    map id | id in rows && Nanos(rows[id].at) >= Nanos(cutoff) :: rows[id]
  }

  /** Deleting by text deletes exactly the rows that are older in time. */
  lemma {:induction false} PruneIsByTime<T>(rows: Table<T>, cutoff: Instant)
    requires Stamped(rows) && Valid(cutoff)
    ensures Execute(rows, Prune(cutoff)) == Recent(rows, cutoff)
  {
    forall id | id in rows ensures Less(rows[id].stamp, Text(cutoff)) <==> Nanos(rows[id].at) < Nanos(cutoff) {
      TextOrderIsTimeOrder(rows[id].at, cutoff);
    }
  }

  class AlertStore<T> {
    var rows: Table<T>
    ghost var ops: seq<Op<T>>

    ghost predicate Consistent()
      reads this
    {
      rows == After(ops) && forall op <- ops :: Sound(op)
    }

    constructor ()
      ensures Consistent() && ops == []
    {
      rows, ops := map[], [];
    }

    method Insert(id: string, at: Instant, body: T)
      requires Consistent() && Valid(at)
      modifies this
      ensures Consistent() && ops == old(ops) + [Op.Insert(id, at, body)]
      ensures rows == old(rows)[id := Row(Text(at), at, body)]
    {
      rows := rows[id := Row(Text(at), at, body)];
      ops := ops + [Op.Insert(id, at, body)];
    }

    /** One tick of the retention task. */
    method Prune(cutoff: Instant)
      requires Consistent() && Valid(cutoff)
      modifies this
      ensures Consistent() && ops == old(ops) + [Op.Prune(cutoff)]
      ensures rows == Recent(old(rows), cutoff)
    {
      AlwaysStamped(ops);
      PruneIsByTime(rows, cutoff);
      rows := map id | id in rows && !Less(rows[id].stamp, Text(cutoff)) :: rows[id];
      ops := ops + [Op.Prune(cutoff)];
    }

    method ClearAll()
      requires Consistent()
      modifies this
      ensures Consistent() && ops == old(ops) + [Op.ClearAll] && rows == map[]
    {
      rows := map[];
      ops := ops + [Op.ClearAll];
    }
  }

  // ---- Whole histories ----

  /** The j-th operation inserts id, and nothing after it replaces, prunes or clears it: a prune spares
      it iff its instant is not before the cutoff. */
  ghost predicate Survives<T>(ops: seq<Op<T>>, j: nat, id: string)
    requires j < |ops|
  {
    && ops[j].Insert? && ops[j].id == id
    && forall i :: j < i < |ops| ==> !Removes(ops[i], ops[j])
  }

  ghost predicate Removes<T>(op: Op<T>, ins: Op<T>)
    requires ins.Insert?
  {
    match op
    case Insert(id, _, _) => id == ins.id
    case Prune(cutoff) => Nanos(ins.at) < Nanos(cutoff)
    case ClearAll => true
  }

  lemma SurvivesSnoc<T>(ops: seq<Op<T>>, op: Op<T>, j: nat, id: string)
    requires j < |ops|
    ensures Survives(ops + [op], j, id) <==> Survives(ops, j, id) && !Removes(op, ops[j])
  {
    var all := ops + [op];
    assert all[j] == ops[j] && all[|ops|] == op;
    assert forall i :: j < i < |ops| ==> all[i] == ops[i];
  }

  ghost predicate RowOf<T>(rows: Table<T>, id: string, ins: Op<T>)
    requires ins.Insert?
  {
    id in rows && rows[id] == Row(Text(ins.at), ins.at, ins.body)
  }

  /** One operation on one id. */
  lemma {:induction false} ExecuteOn<T>(rows: Table<T>, op: Op<T>, ins: Op<T>)
    requires Stamped(rows) && Sound(op) && ins.Insert? && RowOf(rows, ins.id, ins)
    ensures !Removes(op, ins) ==> RowOf(Execute(rows, op), ins.id, ins)
    ensures Removes(op, ins) && !op.Insert? ==> ins.id !in Execute(rows, op)
  {
    if op.Prune? { PruneIsByTime(rows, op.cutoff); }
  }

  ghost predicate HoldsSurvivors<T>(ops: seq<Op<T>>, id: string) {
    && (id in After(ops) ==> exists j :: 0 <= j < |ops| && Survives(ops, j, id))
    && (forall j :: 0 <= j < |ops| && Survives(ops, j, id) ==> RowOf(After(ops), id, ops[j]))
  }

  lemma {:induction false} OneMoreOp<T>(before: seq<Op<T>>, op: Op<T>, id: string)
    requires HoldsSurvivors(before, id) && Stamped(After(before)) && Sound(op)
    ensures HoldsSurvivors(before + [op], id)
  {
    var ops := before + [op];
    forall j | 0 <= j < |ops| && Survives(ops, j, id) ensures RowOf(After(ops), id, ops[j]) {
      if j < |before| {
        SurvivesSnoc(before, op, j, id);
        ExecuteOn(After(before), op, before[j]);
      }
    }
    if id in After(ops) && !(op.Insert? && op.id == id) {
      assert id in After(before);
      var j :| 0 <= j < |before| && Survives(before, j, id);
      ExecuteOn(After(before), op, before[j]);
      SurvivesSnoc(before, op, j, id);
    }
  }

  /** What is in the table: for each id the last row inserted under it, unless it was cleared or has been
      older, in time, than a cutoff. */
  lemma {:induction false} TableHoldsSurvivors<T>(ops: seq<Op<T>>, id: string)
    requires forall op <- ops :: Sound(op)
    ensures HoldsSurvivors(ops, id)
  {
    if ops != [] {
      var before, op := ops[..|ops| - 1], ops[|ops| - 1];
      assert ops == before + [op] && op in ops;
      TableHoldsSurvivors(before, id);
      AlwaysStamped(before);
      OneMoreOp(before, op, id);
    }
  }

  // ---- Listing ----

  /** What ORDER BY ts DESC LIMIT n promises, given what counts as earlier. */
  ghost predicate Listed<T>(rows: Table<T>, limit: nat, ids: seq<string>, earlier: (Row<T>, Row<T>) -> bool) {
    && (forall i, j :: 0 <= i < j < |ids| ==> ids[i] != ids[j])
    && (forall id <- ids :: id in rows)
    && |ids| == (if |rows| < limit then |rows| else limit)
    && (forall i, j :: 0 <= i < j < |ids| ==> !earlier(rows[ids[i]], rows[ids[j]]))
    && (forall id, other :: id in ids && other in rows && other !in ids ==> !earlier(rows[id], rows[other]))
  }

  predicate ByText<T>(a: Row<T>, b: Row<T>) { Less(a.stamp, b.stamp) }

  predicate ByTime<T>(a: Row<T>, b: Row<T>) { Nanos(a.at) < Nanos(b.at) }

  /** Listing by text is listing newest first. */
  lemma {:induction false} ListedNewestFirst<T>(rows: Table<T>, limit: nat, ids: seq<string>)
    requires Stamped(rows)
    ensures Listed(rows, limit, ids, ByText) <==> Listed(rows, limit, ids, ByTime)
  {
    forall a, b | a in rows && b in rows ensures ByText(rows[a], rows[b]) <==> ByTime(rows[a], rows[b]) {
      TextOrderIsTimeOrder(rows[a].at, rows[b].at);
    }
    if Listed(rows, limit, ids, ByText) { ListedAlike(rows, limit, ids, ByText, ByTime); }
    if Listed(rows, limit, ids, ByTime) { ListedAlike(rows, limit, ids, ByTime, ByText); }
  }

  lemma ListedAlike<T>(rows: Table<T>, limit: nat, ids: seq<string>,
                       e: (Row<T>, Row<T>) -> bool, f: (Row<T>, Row<T>) -> bool)
    requires forall a, b :: a in rows && b in rows ==> (e(rows[a], rows[b]) <==> f(rows[a], rows[b]))
    requires Listed(rows, limit, ids, e)
    ensures Listed(rows, limit, ids, f)
  {
  }
}
