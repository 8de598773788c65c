/**
 The windows of one parent's children, as the durable rows record them, and how the steps of a batch
 change them.
 */
module BatchPool {
  import opened Prelude
  import opened SpawnProtocol

  datatype Task = Task(done: bool, worker: Option<string>, session: bool)

  /** A spawn attempt; `idOrder` is the place of its id in text order, the last tie-break between records. */
  datatype Row = Row(
    child: string, state: SpawnState, window: Option<WindowId>, hasConversation: bool, worker: Option<string>,
    updatedAt: int, createdAt: int, idOrder: int, recycled: bool, closed: bool)

  datatype Batch = Batch(tasks: map<string, Task>, bindings: map<string, WindowId>, rows: seq<Row>)

  predicate Ambiguous(st: SpawnState) { st.WindowOpenSubmitted? || st.PromptSubmitted? || st.ReconcileRequired? }

  // ---- Who owns a window ----

  predicate BoundBy(b: Batch, child: string, k: WindowId) {
    && child in b.tasks && b.tasks[child].worker.Some? && b.tasks[child].worker.value in b.bindings
    && b.bindings[b.tasks[child].worker.value] == k
  }

  predicate Holds(row: Row, child: string, k: WindowId) {
    row.child == child && Unresolved(row.state) && row.window == Some(k)
  }

  ghost predicate AttemptHolds(b: Batch, child: string, k: WindowId) {
    exists i :: 0 <= i < |b.rows| && Holds(b.rows[i], child, k)
  }

  /** A current worker's binding, or an unresolved attempt: the direct owners of a window. */
  ghost predicate Direct(b: Batch, child: string, k: WindowId) { BoundBy(b, child, k) || AttemptHolds(b, child, k) }

  predicate Leftover(row: Row, children: seq<string>, k: WindowId) {
    row.child in children && row.state.Completed? && !row.recycled && !row.closed && row.window == Some(k)
      && row.hasConversation
  }

  predicate Newer(a: Row, c: Row) {
    a.updatedAt > c.updatedAt
    || (a.updatedAt == c.updatedAt
        && (a.createdAt > c.createdAt || (a.createdAt == c.createdAt && a.idOrder > c.idOrder)))
  }

  /** The newest record of a completed spawn whose page nobody has taken or closed since. */
  ghost predicate Latest(b: Batch, children: seq<string>, i: nat, k: WindowId) {
    && i < |b.rows| && Leftover(b.rows[i], children, k)
    && forall j :: 0 <= j < |b.rows| && Leftover(b.rows[j], children, k) ==> !Newer(b.rows[j], b.rows[i])
  }

  lemma LatestIsUnique(b: Batch, children: seq<string>, i: nat, j: nat, k: WindowId)
    requires forall x, y :: 0 <= x < y < |b.rows| ==> b.rows[x].idOrder != b.rows[y].idOrder
    requires Latest(b, children, i, k) && Latest(b, children, j, k)
    ensures i == j
  {
  }

  predicate Finished(b: Batch, child: string) { child in b.tasks && b.tasks[child].done }

  ghost predicate InPool(b: Batch, children: seq<string>, k: WindowId) {
    || (exists c :: c in children && Direct(b, c, k))
    || (exists i: nat :: Latest(b, children, i, k) && Finished(b, b.rows[i].child))
  }

  function Keys(b: Batch): set<WindowId> {
    (set w | w in b.bindings :: b.bindings[w])
    + (set i | 0 <= i < |b.rows| && b.rows[i].window.Some? :: b.rows[i].window.value)
  }

  ghost function Pool(b: Batch, children: seq<string>): set<WindowId> {
    set k | k in Keys(b) && InPool(b, children, k)
  }

  lemma PoolMember(b: Batch, children: seq<string>, k: WindowId)
    ensures k in Pool(b, children) <==> InPool(b, children, k)
  {
    if InPool(b, children, k) {
      if c :| c in children && Direct(b, c, k) {
        if !BoundBy(b, c, k) {
          var i :| 0 <= i < |b.rows| && Holds(b.rows[i], c, k);
          assert b.rows[i].window.value == k;
        }
      } else {
        var i: nat :| Latest(b, children, i, k) && Finished(b, b.rows[i].child);
        assert b.rows[i].window.value == k;
      }
    }
  }

  // ---- What a sound registry keeps ----

  /** The state of a row says whether it has a window; see `SpawnSafety.Bindings`. */
  predicate Shaped(row: Row) {
    match row.state
    case Armed => row.window.None?
    case WindowOpenSubmitted => row.window.None?
    case Failed => row.window.None?
    case ReconcileRequired => true
    case _ => row.window.Some?
  }

  /** Rows are shaped and told apart by their ids, and the unique index gives a child at most one unresolved attempt. */
  ghost predicate Sound(b: Batch) {
    && (forall i :: 0 <= i < |b.rows| ==> Shaped(b.rows[i]))
    && (forall i, j :: 0 <= i < j < |b.rows| ==> b.rows[i].idOrder != b.rows[j].idOrder)
    && (forall i, j ::
          (0 <= i < |b.rows| && 0 <= j < |b.rows| && Unresolved(b.rows[i].state) && Unresolved(b.rows[j].state)
           && b.rows[i].child == b.rows[j].child) ==> i == j)
  }

  ghost predicate Exclusive(b: Batch, children: seq<string>) {
    forall c, d, k :: c in children && d in children && Direct(b, c, k) && Direct(b, d, k) ==> c == d
  }

  /** The child has a durable session or is finished, so that its worker's page may be taken. */
  predicate Durable(b: Batch, child: string) { child in b.tasks && (b.tasks[child].done || b.tasks[child].session) }

  /** No such child owns one window twice over, by its worker's binding and by an unresolved attempt. */
  ghost predicate Healthy(b: Batch, children: seq<string>) {
    forall c, k :: c in children && Durable(b, c) && BoundBy(b, c, k) ==> !AttemptHolds(b, c, k)
  }

  // ---- Steps of a batch ----

  function Put(b: Batch, i: nat, row: Row): Batch requires i < |b.rows| { b.(rows := b.rows[i := row]) }

  function BoundRow(row: Row, k: WindowId): Row { row.(state := WindowBound, window := Some(k)) }

  function Unbind(b: Batch, worker: string): Batch { b.(bindings := b.bindings - {worker}) }

  /** The one completed record through which a worker got its window. */
  predicate RecordOf(row: Row, child: string, worker: string, k: WindowId) {
    row.child == child && row.state.Completed? && row.worker == Some(worker) && row.window == Some(k) && !row.recycled
      && !row.closed
  }

  /** Marks the first such record at or after `from`; a child completes at most one attempt, so there is no other. */
  function MarkFrom(rows: seq<Row>, child: string, worker: string, k: WindowId, from: nat): (r: seq<Row>)
    requires from <= |rows|
    ensures |r| == |rows|
    ensures forall j :: 0 <= j < |rows| ==>
      r[j] == rows[j] || (RecordOf(rows[j], child, worker, k) && r[j] == rows[j].(recycled := true))
    decreases |rows| - from
  {
    if from == |rows| then rows
    else if RecordOf(rows[from], child, worker, k) then rows[from := rows[from].(recycled := true)]
    else MarkFrom(rows, child, worker, k, from + 1)
  }

  /** An attempt takes over the window of another child's current worker. */
  function TakenFromWorker(b: Batch, i: nat, source: string, worker: string): Batch
    requires i < |b.rows| && worker in b.bindings
  {
    var k := b.bindings[worker];
    var rows := b.rows[i := BoundRow(b.rows[i], k)];
    Batch(b.tasks, b.bindings - {worker}, MarkFrom(rows, source, worker, k, 0))
  }

  /** An attempt takes over the window that a completed spawn left behind. */
  function TakenFromSpawn(b: Batch, i: nat, j: nat): Batch
    requires i < |b.rows| && j < |b.rows| && b.rows[j].window.Some?
  {
    b.(rows := b.rows[i := BoundRow(b.rows[i], b.rows[j].window.value)][j := b.rows[j].(recycled := true)])
  }

  function Delivered(b: Batch, i: nat, worker: string, at: int): Batch
    requires i < |b.rows| && b.rows[i].window.Some? && b.rows[i].child in b.tasks
  {
    var row := b.rows[i];
    Batch(b.tasks[row.child := b.tasks[row.child].(worker := Some(worker))],
          b.bindings[worker := row.window.value],
          b.rows[i := row.(state := Completed, hasConversation := true, worker := Some(worker), updatedAt := at)])
  }

  // ---- The pool under each step ----

  /** Nothing but `k` can enter the pool if no other window gains an owner and no other record changes. */
  ghost predicate OnlyTouches(b: Batch, b': Batch, children: seq<string>, k: WindowId) {
    && (forall c :: Finished(b', c) == Finished(b, c))
    && (forall c, l :: c in children && l != k && Direct(b', c, l) ==> Direct(b, c, l))
    && |b.rows| <= |b'.rows|
    && (forall j, l :: 0 <= j < |b'.rows| && l != k && Leftover(b'.rows[j], children, l) ==>
          j < |b.rows| && b'.rows[j] == b.rows[j])
    && (forall j, l :: 0 <= j < |b.rows| && l != k && Leftover(b.rows[j], children, l) ==> b'.rows[j] == b.rows[j])
  }

  lemma PoolGainsOnly(b: Batch, b': Batch, children: seq<string>, k: WindowId)
    requires OnlyTouches(b, b', children, k)
    ensures Pool(b', children) <= Pool(b, children) + {k}
  {
    forall l | l in Pool(b', children) && l != k
      ensures l in Pool(b, children)
    {
      if c :| c in children && Direct(b', c, l) {
        assert Direct(b, c, l);
      } else {
        var i: nat :| Latest(b', children, i, l) && Finished(b', b'.rows[i].child);
        assert Latest(b, children, i, l);
      }
      PoolMember(b, children, l);
    }
  }

  /** Binding a row that had no window. */
  lemma BindTouches(b: Batch, i: nat, k: WindowId, children: seq<string>)
    requires i < |b.rows| && Unresolved(b.rows[i].state) && b.rows[i].window.None?
    ensures OnlyTouches(b, Put(b, i, BoundRow(b.rows[i], k)), children, k)
    ensures forall c, l :: AttemptHolds(Put(b, i, BoundRow(b.rows[i], k)), c, l) <==>
      AttemptHolds(b, c, l) || (c == b.rows[i].child && l == k)
  {
    var b' := Put(b, i, BoundRow(b.rows[i], k));
    assert Holds(b'.rows[i], b.rows[i].child, k);
    forall c, l | AttemptHolds(b, c, l)
      ensures AttemptHolds(b', c, l)
    {
      var j :| 0 <= j < |b.rows| && Holds(b.rows[j], c, l);
      assert j != i && Holds(b'.rows[j], c, l);
    }
    forall c, l | AttemptHolds(b', c, l)
      ensures AttemptHolds(b, c, l) || (c == b.rows[i].child && l == k)
    {
      var j :| 0 <= j < |b'.rows| && Holds(b'.rows[j], c, l);
      if j != i {
        assert Holds(b.rows[j], c, l);
      }
    }
  }

  /** Marking completed records leaves every attempt's hold as it is, and can only take windows out of the pool. */
  ghost predicate Marked(b: Batch, b': Batch, k: WindowId) {
    && b'.tasks == b.tasks && b'.bindings.Keys <= b.bindings.Keys
    && (forall w :: w in b'.bindings ==> b'.bindings[w] == b.bindings[w])
    && |b'.rows| == |b.rows|
    && forall j :: 0 <= j < |b.rows| ==>
         b'.rows[j] == b.rows[j]
         || (b.rows[j].state.Completed? && b.rows[j].window == Some(k)
             && b'.rows[j] == b.rows[j].(recycled := b'.rows[j].recycled, closed := b'.rows[j].closed))
  }

  lemma MarkTouches(b: Batch, b': Batch, k: WindowId, children: seq<string>)
    requires Marked(b, b', k)
    ensures OnlyTouches(b, b', children, k)
    ensures forall c, l :: AttemptHolds(b', c, l) <==> AttemptHolds(b, c, l)
    ensures Sound(b) ==> Sound(b')
  {
    forall c, l
      ensures AttemptHolds(b', c, l) <==> AttemptHolds(b, c, l)
    {
      if AttemptHolds(b, c, l) {
        var j :| 0 <= j < |b.rows| && Holds(b.rows[j], c, l);
        assert Holds(b'.rows[j], c, l);
      }
      if AttemptHolds(b', c, l) {
        var j :| 0 <= j < |b'.rows| && Holds(b'.rows[j], c, l);
        assert Holds(b.rows[j], c, l);
      }
    }
  }

  // ---- Recycling ----

  lemma TakenFromWorkerIsMarked(b: Batch, i: nat, source: string, worker: string)
    requires i < |b.rows| && worker in b.bindings
    ensures Marked(Put(b, i, BoundRow(b.rows[i], b.bindings[worker])), TakenFromWorker(b, i, source, worker),
                   b.bindings[worker])
  {
  }

  /** Afterwards the worker owns nothing and the attempt owns the window; nobody else's ownership has moved. */
  lemma TakenOwners(b: Batch, i: nat, source: string, worker: string)
    requires i < |b.rows| && Unresolved(b.rows[i].state) && b.rows[i].window.None? && worker in b.bindings
    ensures
      var b' := TakenFromWorker(b, i, source, worker);
      && (forall d, l :: BoundBy(b', d, l) <==> BoundBy(b, d, l) && b.tasks[d].worker != Some(worker))
      && (forall d, l ::
            AttemptHolds(b', d, l) <==> AttemptHolds(b, d, l) || (d == b.rows[i].child && l == b.bindings[worker]))
  {
    var k := b.bindings[worker];
    BindTouches(b, i, k, []);
    TakenFromWorkerIsMarked(b, i, source, worker);
    MarkTouches(Put(b, i, BoundRow(b.rows[i], k)), TakenFromWorker(b, i, source, worker), k, []);
  }

  /** Taking over a worker's window adds nothing to the pool. */
  lemma TakeFromWorkerKeepsPool(b: Batch, i: nat, source: string, worker: string, children: seq<string>)
    requires i < |b.rows| && Unresolved(b.rows[i].state) && b.rows[i].window.None? && worker in b.bindings
    requires source in children && source in b.tasks && b.tasks[source].worker == Some(worker)
    ensures Pool(TakenFromWorker(b, i, source, worker), children) <= Pool(b, children)
    ensures Sound(b) ==> Sound(TakenFromWorker(b, i, source, worker))
  {
    var k := b.bindings[worker];
    var m, b' := Put(b, i, BoundRow(b.rows[i], k)), TakenFromWorker(b, i, source, worker);
    BindTouches(b, i, k, children);
    PoolGainsOnly(b, m, children, k);
    TakenFromWorkerIsMarked(b, i, source, worker);
    MarkTouches(m, b', k, children);
    PoolGainsOnly(m, b', children, k);
    assert Direct(b, source, k);
    PoolMember(b, children, k);
  }

  /**
   Recycling a worker's window keeps ownership exclusive exactly when the child it is taken from has no
   unresolved attempt on that same window.
   */
  lemma TakeFromWorkerExclusiveIff(b: Batch, i: nat, source: string, worker: string, children: seq<string>)
    requires i < |b.rows| && Unresolved(b.rows[i].state) && b.rows[i].window.None? && worker in b.bindings
    requires b.rows[i].child in children && source in children && source != b.rows[i].child
    requires source in b.tasks && b.tasks[source].worker == Some(worker)
    requires Exclusive(b, children)
    ensures Exclusive(TakenFromWorker(b, i, source, worker), children) <==> !AttemptHolds(b, source, b.bindings[worker])
  {
    var k, c, b' := b.bindings[worker], b.rows[i].child, TakenFromWorker(b, i, source, worker);
    TakenOwners(b, i, source, worker);
    assert Direct(b, source, k);
    assert Direct(b', c, k);
    if AttemptHolds(b, source, k) {
      assert Direct(b', source, k);
    } else {
      assert forall d, l :: d in children && Direct(b', d, l) ==> (if l == k then d == c else Direct(b, d, l));
    }
  }

  lemma TakeFromWorkerKeepsHealthy(b: Batch, i: nat, source: string, worker: string, children: seq<string>)
    requires i < |b.rows| && Unresolved(b.rows[i].state) && b.rows[i].window.None? && worker in b.bindings
    requires Healthy(b, children) && b.rows[i].child in b.tasks && b.tasks[b.rows[i].child].worker.None?
    ensures Healthy(TakenFromWorker(b, i, source, worker), children)
  {
    TakenOwners(b, i, source, worker);
  }

  /** The window of a completed spawn is free for the taking: nobody owns it directly. */
  lemma TakeFromSpawnKeeps(b: Batch, i: nat, j: nat, k: WindowId, children: seq<string>)
    requires i < |b.rows| && Unresolved(b.rows[i].state) && b.rows[i].window.None? && b.rows[i].child in children
    requires Latest(b, children, j, k) && Finished(b, b.rows[j].child) && forall c :: c in children ==> !Direct(b, c, k)
    ensures Pool(TakenFromSpawn(b, i, j), children) <= Pool(b, children)
    ensures Sound(b) ==> Sound(TakenFromSpawn(b, i, j))
    ensures Exclusive(b, children) ==> Exclusive(TakenFromSpawn(b, i, j), children)
    ensures Healthy(b, children) ==> Healthy(TakenFromSpawn(b, i, j), children)
  {
    var m, b' := Put(b, i, BoundRow(b.rows[i], k)), TakenFromSpawn(b, i, j);
    BindTouches(b, i, k, children);
    PoolGainsOnly(b, m, children, k);
    assert Marked(m, b', k);
    MarkTouches(m, b', k, children);
    PoolGainsOnly(m, b', children, k);
    PoolMember(b, children, k);
    assert forall d, l :: BoundBy(b', d, l) <==> BoundBy(b, d, l);
  }

  /** A freshly opened window adds one to the pool and belongs to the child it was opened for. */
  lemma OpenKeeps(b: Batch, i: nat, k: WindowId, children: seq<string>)
    requires i < |b.rows| && Unresolved(b.rows[i].state) && b.rows[i].window.None?
    requires forall c :: c in children ==> !Direct(b, c, k)
    ensures Pool(Put(b, i, BoundRow(b.rows[i], k)), children) <= Pool(b, children) + {k}
    ensures Sound(b) ==> Sound(Put(b, i, BoundRow(b.rows[i], k)))
    ensures Exclusive(b, children) ==> Exclusive(Put(b, i, BoundRow(b.rows[i], k)), children)
    ensures Healthy(b, children) ==> Healthy(Put(b, i, BoundRow(b.rows[i], k)), children)
  {
    var b' := Put(b, i, BoundRow(b.rows[i], k));
    BindTouches(b, i, k, children);
    PoolGainsOnly(b, b', children, k);
    assert forall d, l :: BoundBy(b', d, l) <==> BoundBy(b, d, l);
  }

  // ---- The other steps ----

  function SetRow(b: Batch, i: nat, st: SpawnState): Batch
    requires i < |b.rows|
  {
    Put(b, i, b.rows[i].(state := st))
  }

  lemma StateOwners(b: Batch, i: nat, st: SpawnState)
    requires i < |b.rows| && Unresolved(b.rows[i].state)
    ensures forall c, l :: AttemptHolds(SetRow(b, i, st), c, l) ==> AttemptHolds(b, c, l)
    ensures forall c, l :: BoundBy(SetRow(b, i, st), c, l) <==> BoundBy(b, c, l)
  {
    var b' := SetRow(b, i, st);
    forall c, l | AttemptHolds(b', c, l)
      ensures AttemptHolds(b, c, l)
    {
      var j :| 0 <= j < |b'.rows| && Holds(b'.rows[j], c, l);
      assert Holds(b.rows[j], c, l);
    }
  }

  /** Moving an unresolved attempt between unresolved states, or to FAILED before it has a window, moves no window. */
  lemma StateKeeps(b: Batch, i: nat, st: SpawnState, children: seq<string>)
    requires Sound(b) && i < |b.rows| && Unresolved(b.rows[i].state) && Shaped(b.rows[i].(state := st))
    requires !st.Completed?
    ensures Sound(SetRow(b, i, st)) && Pool(SetRow(b, i, st), children) <= Pool(b, children)
    ensures Exclusive(b, children) ==> Exclusive(SetRow(b, i, st), children)
    ensures Healthy(b, children) ==> Healthy(SetRow(b, i, st), children)
  {
    var b' := SetRow(b, i, st);
    StateOwners(b, i, st);
    FewerOwners(b, b', children);
    OwnersShrink(b, b', children);
  }

  lemma FewerOwners(b: Batch, b': Batch, children: seq<string>)
    requires forall d, l :: BoundBy(b', d, l) ==> BoundBy(b, d, l)
    requires forall d, l :: AttemptHolds(b', d, l) ==> AttemptHolds(b, d, l)
    requires forall d :: Durable(b', d) ==> Durable(b, d)
    ensures Exclusive(b, children) ==> Exclusive(b', children)
    ensures Healthy(b, children) ==> Healthy(b', children)
  {
    assert forall d, l :: Direct(b', d, l) ==> Direct(b, d, l);
  }

  /** If no window gains an owner and the leftover records are the same, the pool does not grow. */
  lemma OwnersShrink(b: Batch, b': Batch, children: seq<string>)
    requires forall c, l :: Direct(b', c, l) ==> Direct(b, c, l)
    requires b'.tasks == b.tasks && |b'.rows| >= |b.rows|
    requires forall j, l :: 0 <= j < |b.rows| ==>
      (Leftover(b.rows[j], children, l) || Leftover(b'.rows[j], children, l)) ==> b'.rows[j] == b.rows[j]
    requires forall j, l :: |b.rows| <= j < |b'.rows| ==> !Leftover(b'.rows[j], children, l)
    ensures Pool(b', children) <= Pool(b, children)
  {
    forall l | l in Pool(b', children)
      ensures l in Pool(b, children)
    {
      if c :| c in children && Direct(b', c, l) {
        assert Direct(b, c, l);
      } else {
        var i: nat :| Latest(b', children, i, l) && Finished(b', b'.rows[i].child);
        assert Latest(b, children, i, l);
      }
      PoolMember(b, children, l);
    }
  }

  lemma ArmKeeps(b: Batch, row: Row, children: seq<string>)
    requires Sound(b) && row.state.Armed? && row.window.None?
    requires forall i :: 0 <= i < |b.rows| && b.rows[i].child == row.child ==> !Unresolved(b.rows[i].state)
    requires forall i :: 0 <= i < |b.rows| ==> b.rows[i].idOrder != row.idOrder
    ensures Sound(b.(rows := b.rows + [row])) && Pool(b.(rows := b.rows + [row]), children) <= Pool(b, children)
    ensures Exclusive(b, children) ==> Exclusive(b.(rows := b.rows + [row]), children)
    ensures Healthy(b, children) ==> Healthy(b.(rows := b.rows + [row]), children)
  {
    var b' := b.(rows := b.rows + [row]);
    forall c, l | AttemptHolds(b', c, l)
      ensures AttemptHolds(b, c, l)
    {
      var j :| 0 <= j < |b'.rows| && Holds(b'.rows[j], c, l);
      assert Holds(b.rows[j], c, l);
    }
    assert forall d, l :: BoundBy(b', d, l) <==> BoundBy(b, d, l);
    FewerOwners(b, b', children);
    OwnersShrink(b, b', children);
  }

  ghost predicate CanDeliver(b: Batch, i: nat, worker: string, children: seq<string>) {
    && i < |b.rows| && Unresolved(b.rows[i].state) && b.rows[i].window.Some?
    && b.rows[i].child in children && b.rows[i].child in b.tasks
    && forall c :: c in b.tasks && c != b.rows[i].child ==> b.tasks[c].worker != Some(worker)
  }

  lemma DeliveredOwners(b: Batch, i: nat, worker: string, at: int, children: seq<string>)
    requires Sound(b) && CanDeliver(b, i, worker, children)
    ensures
      var b', child, k := Delivered(b, i, worker, at), b.rows[i].child, b.rows[i].window.value;
      && Direct(b, child, k)
      && (forall d, l :: d != child ==> (BoundBy(b', d, l) <==> BoundBy(b, d, l)))
      && (forall l :: BoundBy(b', child, l) <==> l == k)
      && (forall d, l :: AttemptHolds(b', d, l) ==> AttemptHolds(b, d, l) && d != child)
  {
    var b', child, k := Delivered(b, i, worker, at), b.rows[i].child, b.rows[i].window.value;
    assert Holds(b.rows[i], child, k);
    forall c, l | AttemptHolds(b', c, l)
      ensures AttemptHolds(b, c, l) && c != child
    {
      var j :| 0 <= j < |b'.rows| && Holds(b'.rows[j], c, l);
      assert Holds(b.rows[j], c, l);
    }
  }

  /** A delivered prompt hands the window from the attempt to the child's new worker. */
  lemma DeliverKeeps(b: Batch, i: nat, worker: string, at: int, children: seq<string>)
    requires Sound(b) && CanDeliver(b, i, worker, children)
    ensures Sound(Delivered(b, i, worker, at)) && Pool(Delivered(b, i, worker, at), children) <= Pool(b, children)
    ensures Exclusive(b, children) ==> Exclusive(Delivered(b, i, worker, at), children)
    ensures Healthy(b, children) ==> Healthy(Delivered(b, i, worker, at), children)
  {
    var b', k := Delivered(b, i, worker, at), b.rows[i].window.value;
    DeliveredOwners(b, i, worker, at, children);
    assert OnlyTouches(b, b', children, k);
    PoolGainsOnly(b, b', children, k);
    PoolMember(b, children, k);
    assert forall d, l :: Direct(b', d, l) ==> Direct(b, d, l);
  }

  /** Closing a page, or forgetting a worker's binding, only takes away. */
  lemma ShrinkKeeps(b: Batch, b': Batch, k: WindowId, children: seq<string>)
    requires Sound(b) && Marked(b, b', k)
    ensures Sound(b') && Pool(b', children) <= Pool(b, children) + {k}
    ensures Exclusive(b, children) ==> Exclusive(b', children)
    ensures Healthy(b, children) ==> Healthy(b', children)
  {
    MarkTouches(b, b', k, children);
    PoolGainsOnly(b, b', children, k);
    assert forall d, l :: BoundBy(b', d, l) ==> BoundBy(b, d, l);
    FewerOwners(b, b', children);
  }
}
