/** How a window comes to have two owners: an adoption that was not published, and a batch that recycles its page. */
module BatchLimits {
  import opened Prelude
  import opened BatchPool
  import opened ChildBatch
  import Spawn = SpawnProtocol
  import SpawnSafety

  // ---- The anomaly ----

  /** The worker of the conversation is registered, but publishing the row has raised and left it WINDOW_BOUND. */
  function AdoptedWithoutPublish(b: Batch, i: nat, worker: string): Batch
    requires i < |b.rows| && b.rows[i].window.Some? && b.rows[i].child in b.tasks
  {
    var child := b.rows[i].child;
    b.(tasks := b.tasks[child := b.tasks[child].(worker := Some(worker))],
       bindings := b.bindings[worker := b.rows[i].window.value])
  }

  function SessionBound(b: Batch, child: string): Batch
    requires child in b.tasks
  {
    b.(tasks := b.tasks[child := b.tasks[child].(session := true)])
  }

  /** The batch's rows are those of the spawn protocol, and whoever has a worker was adopted there. */
  ghost predicate Mirrors(s: Spawn.Sys, b: Batch) {
    && |b.rows| == |s.attempts|
    && (forall i :: 0 <= i < |b.rows| ==>
          && b.rows[i].child == s.attempts[i].child && b.rows[i].state == s.attempts[i].state
          && b.rows[i].window == s.attempts[i].window && b.rows[i].hasConversation == s.attempts[i].conversation.Some?)
    && forall c :: c in b.tasks && b.tasks[c].worker.Some? ==> c in s.adopted
  }

  /** Reconciling a WINDOW_BOUND attempt that shows a conversation leads exactly there. */
  lemma BoundReconcileLeavesAnomaly(
    acts: seq<Spawn.Action>, id: nat, url: Spawn.PageUrl, b: Batch, worker: string)
    requires Spawn.Legal(acts) && Spawn.Exec(acts).hand.Idle? && id < |Spawn.Exec(acts).attempts|
    requires Spawn.Exec(acts).attempts[id].state.WindowBound?
    requires Spawn.InProject(Some(url), Spawn.Exec(acts).attempts[id])
    requires Mirrors(Spawn.Exec(acts), b) && Sound(b) && id < |b.rows| && b.rows[id].child in b.tasks
    ensures Spawn.Enabled(Spawn.Exec(acts), Spawn.Adopt(id, url))
    ensures Mirrors(
      Spawn.Apply(Spawn.Apply(Spawn.Exec(acts), Spawn.Adopt(id, url)), Spawn.Crash),
        AdoptedWithoutPublish(b, id, worker))
  {
    SpawnSafety.BoundReconcileAdoptsAndRaises(acts, id, url);
  }

  lemma AnomalyOwners(b: Batch, i: nat, worker: string, children: seq<string>)
    requires CanDeliver(b, i, worker, children)
    ensures
      var b', child, k := SessionBound(AdoptedWithoutPublish(b, i, worker), b.rows[i].child), b.rows[i].child,
          b.rows[i].window.value;
      && (forall d, l :: d != child && BoundBy(b', d, l) ==> BoundBy(b, d, l))
      && (forall l :: BoundBy(b', child, l) <==> l == k)
      && (forall d, l :: AttemptHolds(b', d, l) <==> AttemptHolds(b, d, l))
      && AttemptHolds(b, child, k)
  {
    assert Holds(b.rows[i], b.rows[i].child, b.rows[i].window.value);
  }

  /** The batch accepts the registry, and would take the child's page although its own attempt still holds it. */
  lemma AnomalyIsAccepted(b: Batch, i: nat, worker: string, children: seq<string>)
    requires Sound(b) && Exclusive(b, children) && CanDeliver(b, i, worker, children) && b.rows[i].state.WindowBound?
    requires forall c :: c in children ==> Unambiguous(b, c)
    ensures
      var child, k := b.rows[i].child, b.rows[i].window.value;
      var b' := SessionBound(AdoptedWithoutPublish(b, i, worker), child);
      && Sound(b') && Exclusive(b', children) && (forall c :: c in children ==> Unambiguous(b', c))
      && Usable(b', children, WorkerSource(child, b.tasks[child].done, worker, k))
      && DoublyOwned(b', WorkerSource(child, b.tasks[child].done, worker, k))
  {
    var b' := SessionBound(AdoptedWithoutPublish(b, i, worker), b.rows[i].child);
    AnomalyOwners(b, i, worker, children);
    assert forall d, l :: Direct(b', d, l) ==> Direct(b, d, l);
    assert forall c :: c in children ==> Unambiguous(b, c);
  }

  /** Recycling a page that is owned twice over for an armed attempt of another child shares it. */
  lemma DoublyOwnedIsShared(b: Batch, j: nat, source: Source, children: seq<string>)
    requires Exclusive(b, children) && Usable(b, children, source) && DoublyOwned(b, source)
    requires j < |b.rows| && b.rows[j].state.Armed? && b.rows[j].window.None?
    requires b.rows[j].child in children && b.rows[j].child != source.child
    ensures !Exclusive(
      TakenFromWorker(SetRow(b, j, Spawn.WindowOpenSubmitted), j, source.child, source.worker), children)
  {
    StillUsable(b, j, children, source);
    TakeFromWorkerExclusiveIff(
      SetRow(b, j, Spawn.WindowOpenSubmitted), j, source.child, source.worker, children);
  }

  /**
   A registry the batch accepts in which recycling shares a window: after such a reconciliation of one child and its
   session, any other child with an armed attempt may be given the page, which the first child's attempt still holds.
   */
  lemma AnomalyIsRecycledShared(b: Batch, i: nat, j: nat, worker: string, children: seq<string>)
    requires Sound(b) && Exclusive(b, children) && CanDeliver(b, i, worker, children) && b.rows[i].state.WindowBound?
    requires forall c :: c in children ==> Unambiguous(b, c)
    requires j < |b.rows| && b.rows[j].state.Armed? && b.rows[j].child in children && b.rows[j].child != b.rows[i].child
    ensures
      var child, k := b.rows[i].child, b.rows[i].window.value;
      var b' := SessionBound(AdoptedWithoutPublish(b, i, worker), child);
      && Sound(b') && Exclusive(b', children) && (forall c :: c in children ==> Unambiguous(b', c))
      && Usable(b', children, WorkerSource(child, b.tasks[child].done, worker, k))
      && !Exclusive(TakenFromWorker(SetRow(b', j, Spawn.WindowOpenSubmitted), j, child, worker), children)
  {
    var child, k := b.rows[i].child, b.rows[i].window.value;
    var b' := SessionBound(AdoptedWithoutPublish(b, i, worker), child);
    AnomalyIsAccepted(b, i, worker, children);
    DoublyOwnedIsShared(b', j, WorkerSource(child, b.tasks[child].done, worker, k), children);
  }

  /**
   Exactly when the batch may share a window: some page it may recycle for an attempt ends up with two owners if
   and only if a durable child owns a window twice over.
   */
  lemma RecyclingMayShareIff(b: Batch, i: nat, children: seq<string>)
    requires Exclusive(b, children) && i < |b.rows| && b.rows[i].state.WindowOpenSubmitted? && b.rows[i].window.None?
    requires b.rows[i].child in children && b.rows[i].child in b.tasks && b.tasks[b.rows[i].child].worker.None?
    ensures
      (exists s :: Usable(b, children, s) && s.WorkerSource? && s.child != b.rows[i].child
                   && !Exclusive(TakenFromWorker(b, i, s.child, s.worker), children))
      <==> !Healthy(b, children)
  {
    forall s | Usable(b, children, s) && s.WorkerSource? && s.child != b.rows[i].child
      ensures Exclusive(TakenFromWorker(b, i, s.child, s.worker), children) <==> !AttemptHolds(b, s.child, s.window)
    {
      TakeFromWorkerExclusiveIff(b, i, s.child, s.worker, children);
    }
    if !Healthy(b, children) {
      var c, k :| c in children && Durable(b, c) && BoundBy(b, c, k) && AttemptHolds(b, c, k);
      var s := WorkerSource(c, b.tasks[c].done, b.tasks[c].worker.value, k);
      assert Usable(b, children, s);
    }
  }

  // ---- A registry in which it happens ----

  /** Two children: "a" has its window bound and has been adopted without a publication, "b" is armed. */
  function SharedRegistry(): Batch {
    Batch(
      map["a" := Task(false, Some("w"), true), "b" := Task(false, None, false)],
      map["w" := Spawn.WindowId(1, 1)],
      [Row("a", Spawn.WindowBound, Some(Spawn.WindowId(1, 1)), false, None, 0, 0, 0, false, false),
       Row("b", Spawn.Armed, None, false, None, 0, 0, 1, false, false)])
  }

  function BeforeAnomaly(): Batch {
    SharedRegistry().(tasks := map["a" := Task(false, None, false), "b" := Task(false, None, false)], bindings := map[])
  }

  lemma BeforeAnomalyIsSound()
    ensures Sound(BeforeAnomaly()) && CanDeliver(BeforeAnomaly(), 0, "w", ["a", "b"])
  {
  }

  lemma BeforeAnomalyIsExclusive()
    ensures Exclusive(BeforeAnomaly(), ["a", "b"])
  {
    var b := BeforeAnomaly();
    assert forall c, k :: Direct(b, c, k) ==> Holds(b.rows[0], c, k) || Holds(b.rows[1], c, k);
    assert forall c, k :: Direct(b, c, k) ==> c == "a";
  }

  lemma SharedRegistryIsAccepted()
    ensures var b, children := SharedRegistry(), ["a", "b"];
      && Sound(b) && Exclusive(b, children) && (forall c :: c in children ==> Unambiguous(b, c))
      && Usable(b, children, WorkerSource("a", false, "w", Spawn.WindowId(1, 1)))
      && !Exclusive(TakenFromWorker(SetRow(b, 1, Spawn.WindowOpenSubmitted), 1, "a", "w"), children)
  {
    var b := BeforeAnomaly();
    BeforeAnomalyIsSound();
    BeforeAnomalyIsExclusive();
    AnomalyIsRecycledShared(b, 0, 1, "w", ["a", "b"]);
    var b' := SessionBound(AdoptedWithoutPublish(b, 0, "w"), "a");
    assert b'.tasks == SharedRegistry().tasks;
    assert b'.bindings == SharedRegistry().bindings;
  }
}
